/**
 * Reorganisations during a run. Cursors are read into memory once, so a source
 * that had already passed the replaced height skips the new branch's blocks.
 */
module IndexerReorgs {
  import opened Wrappers
  import opened Indexer
  import opened IndexerCoverage

  // ----- When the guard holds

  /** L1 answers one chain throughout the run. */
  ghost predicate Stable(o: Oracle, chain: nat -> Block) {
    && (forall h: nat :: o.blocks(h).Some? ==> o.blocks(h).value == chain(h))
    && (forall h: nat :: o.ancestors(h).Some? ==> o.ancestors(h).value == chain(h).hash)
  }

  ghost predicate Linked(chain: nat -> Block) {
    forall h: nat :: h > 0 ==> chain(h).parent == chain(h - 1).hash
  }

  /** A block's hash commits to its parent. */
  ghost predicate Commits(st: Store, chain: nat -> Block) {
    forall h :: h in st.journal && st.journal[h].hash == chain(h).hash ==> st.journal[h].parent == chain(h).parent
  }

  ghost predicate AgreesUpTo(st: Store, chain: nat -> Block, top: nat) {
    forall h :: h in st.journal && h <= top ==> st.journal[h].hash == chain(h).hash
  }

  lemma {:induction false} AgreementGoesDown(st: Store, chain: nat -> Block, top: nat, height: nat)
    requires Chained(st) && Linked(chain) && Commits(st, chain)
    requires top in st.journal && st.journal[top].hash == chain(top).hash
    requires height in st.journal && height <= top
    ensures st.journal[height].hash == chain(height).hash
    decreases top - height
  {
    if height < top {
      AgreementGoesDown(st, chain, top, height + 1);
      assert st.journal[height + 1].parent == st.journal[height].hash;
      assert chain(height + 1).parent == chain(height).hash;
    }
  }

  lemma AncestorAgrees(st: Store, o: Oracle, chain: nat -> Block)
    requires Chained(st) && Linked(chain) && Commits(st, chain) && Stable(o, chain) && RunAncestor(st, o).Ok?
    ensures AgreesUpTo(st, chain, RunAncestor(st, o).value) && RunAncestor(st, o).value <= HeadOf(st)
  {
    var a := RunAncestor(st, o).value;
    if st.head.Some? {
      AncestorIsGreatest(st, o.ancestors, st.head.value);
      if a in st.journal {
        assert st.journal[a].hash == chain(a).hash;
        forall h | h in st.journal && h <= a ensures st.journal[h].hash == chain(h).hash {
          AgreementGoesDown(st, chain, a, h);
        }
      }
    }
  }

  function Later(a: nat, b: int): nat {
    if b > a then b else a
  }

  /** The loop is at a block, with nothing above it ingested and everything journalled so far on the chain. */
  ghost predicate Following(p: Progress, sources: seq<string>, chain: nat -> Block, ancestor: nat, done: int) {
    && Chained(p.st) && ancestor <= HeadOf(p.st)
    && AgreesUpTo(p.st, chain, Later(ancestor, done))
    && forall s :: s in sources ==> Reached(p.mem, p.st.anchor.number, s) <= Later(ancestor, done)
  }

  lemma {:induction false} MemoryIsBounded(
      p: Progress, sources: seq<string>, number: nat, hash: Hash, records: (string, nat) -> bool, source: string)
    ensures var after := SourceSteps(p, sources, number, hash, records);
            var anchor := p.st.anchor.number;
            after.st.anchor == p.st.anchor
            && Reached(after.mem, anchor, source) <= Later(number, Reached(p.mem, anchor, source))
  {
    if sources != [] {
      MemoryIsBounded(p, sources[..|sources| - 1], number, hash, records, source);
    }
  }

  lemma RecordFollows(p: Progress, chain: nat -> Block, ancestor: nat, number: nat)
    requires Chained(p.st) && ancestor <= HeadOf(p.st) && number > p.st.anchor.number
    requires AgreesUpTo(p.st, chain, Later(ancestor, number - 1))
    ensures IsReorg(p.st, number, Some(chain(number))) ==> ancestor < number
    ensures var after := RecordStep(p, number, chain(number));
            && Chained(after.st) && ancestor <= HeadOf(after.st) && after.mem == p.mem && after.st.anchor == p.st.anchor
            && (!after.aborted ==> AgreesUpTo(after.st, chain, Later(ancestor, number)))
  {
    if number <= ancestor {
      assert number in p.st.journal;
    } else {
      RecordStepKeepsChain(p, number, chain(number));
      RecordFollowsAbove(p, chain, number);
    }
  }

  /** A block of the chain recorded above what agrees with it extends the agreement. */
  lemma RecordFollowsAbove(p: Progress, chain: nat -> Block, number: nat)
    requires Chained(p.st) && number > p.st.anchor.number && AgreesUpTo(p.st, chain, number - 1)
    ensures var after := RecordStep(p, number, chain(number));
            && (HeadOf(after.st) >= number || after.st == p.st)
            && (!after.aborted ==> AgreesUpTo(after.st, chain, number))
  {
    if !(number in p.st.journal && p.st.journal[number].hash == chain(number).hash)
       && ParentKnown(p.st, number, chain(number)) {
      RecordKeepsChain(p.st, number, chain(number));
    }
  }

  lemma BlockFollows(p: Progress, sources: seq<string>, o: Oracle, chain: nat -> Block, ancestor: nat, number: nat)
    requires Stable(o, chain) && !p.aborted && Following(p, sources, chain, ancestor, number - 1)
    requires number > p.st.anchor.number
    ensures forall s :: s in sources ==> NotPassed(p, s, number, o)
    ensures var after := BlockStep(p, sources, number, o);
            after.st.anchor == p.st.anchor && (!after.aborted ==> Following(after, sources, chain, ancestor, number))
  {
    if o.blocks(number).Some? {
      var block := chain(number);
      RecordFollows(p, chain, ancestor, number);
      var recorded := RecordStep(p, number, block);
      if !recorded.aborted {
        var after := SourceSteps(recorded, sources, number, block.hash, o.records);
        SourcesKeepJournal(recorded, sources, number, block.hash, o.records);
        ChainedAlike(recorded.st, after.st);
        forall s | s in sources ensures Reached(after.mem, after.st.anchor.number, s) <= Later(ancestor, number) {
          MemoryIsBounded(recorded, sources, number, block.hash, o.records, s);
        }
      }
    }
  }

  lemma {:induction false} BlocksFollow(
      p: Progress, sources: seq<string>, o: Oracle, chain: nat -> Block, ancestor: nat, first: nat, last: int)
    requires Stable(o, chain) && !p.aborted && Following(p, sources, chain, ancestor, first - 1)
    requires first > p.st.anchor.number && last >= first - 1
    ensures forall s :: s in sources ==> SafeBlocks(p, sources, s, first, last, o)
    ensures var after := BlockSteps(p, sources, first, last, o);
            after.st.anchor == p.st.anchor && (!after.aborted ==> Following(after, sources, chain, ancestor, last))
    decreases last
  {
    if first <= last {
      BlocksFollow(p, sources, o, chain, ancestor, first, last - 1);
      var before := BlockSteps(p, sources, first, last - 1, o);
      if !before.aborted {
        BlockFollows(before, sources, o, chain, ancestor, last);
      }
      forall s | s in sources ensures SafeBlocks(p, sources, s, first, last, o) {
        SafeBlocksGrow(p, sources, s, first, last, o);
      }
    }
  }

  lemma SafeBlocksGrow(p: Progress, sources: seq<string>, source: string, first: nat, last: nat, o: Oracle)
    requires SafeBlocks(p, sources, source, first, last - 1, o) && SafeBlock(p, sources, source, first, last, o)
    ensures SafeBlocks(p, sources, source, first, last, o)
  {
  }

  lemma RunStartsFollowing(st: Store, sources: seq<string>, o: Oracle, chain: nat -> Block)
    requires Sound(st, sources) && Stable(o, chain) && Linked(chain) && Commits(st, chain) && RunAncestor(st, o).Ok?
    requires forall s :: s in sources ==> DurableAt(st, s) <= RunAncestor(st, o).value
    ensures var ancestor, mem := RunAncestor(st, o).value, ReadCursors(st);
            var minimum := MinimumCursor(mem, st.anchor.number, sources, ancestor);
            && st.anchor.number <= minimum <= ancestor
            && Following(Progress(st, mem, false), sources, chain, ancestor, minimum)
  {
    var ancestor, mem := RunAncestor(st, o).value, ReadCursors(st);
    AncestorAgrees(st, o, chain);
    AncestorAboveAnchor(st, o);
    forall s | s in sources ensures Reached(mem, st.anchor.number, s) == DurableAt(st, s) >= st.anchor.number {
      assert Covered(st, s);
    }
    MinimumIsBelow(mem, st.anchor.number, sources, ancestor);
  }

  /** While L1 answers one chain, a run that starts with no cursor above the common ancestor meets the guard. */
  lemma StableRunIsSafe(st: Store, sources: seq<string>, maxBlocks: nat, o: Oracle, chain: nat -> Block)
    requires Sound(st, sources) && Stable(o, chain) && Linked(chain) && Commits(st, chain)
    requires RunAncestor(st, o).Ok? ==> forall s :: s in sources ==> DurableAt(st, s) <= RunAncestor(st, o).value
    ensures SafeRun(st, sources, maxBlocks, o)
  {
    if o.latest.Some? && RunAncestor(st, o).Ok? {
      RunStartsFollowing(st, sources, o, chain);
      var ancestor, mem := RunAncestor(st, o).value, ReadCursors(st);
      var start := MinimumCursor(mem, st.anchor.number, sources, ancestor) + 1;
      var last := RunLast(st, sources, maxBlocks, ancestor, o.latest.value);
      if last >= start {
        BlocksFollow(Progress(st, mem, false), sources, o, chain, ancestor, start, last);
      }
    }
  }

  /** Each run is answered by one chain, which may differ from run to run, and finds no cursor above its ancestor. */
  ghost predicate SteadyRuns(st: Store, sources: seq<string>, maxBlocks: nat, oracles: seq<Oracle>, chains: seq<nat -> Block>) {
    && |chains| == |oracles|
    && forall k :: 0 <= k < |oracles| ==> SteadyRun(Runs(st, sources, maxBlocks, oracles[..k]), sources, oracles[k], chains[k])
  }

  ghost predicate SteadyRun(st: Store, sources: seq<string>, o: Oracle, chain: nat -> Block) {
    && Stable(o, chain) && Linked(chain) && Commits(st, chain)
    && (RunAncestor(st, o).Ok? ==> forall s :: s in sources ==> DurableAt(st, s) <= RunAncestor(st, o).value)
  }

  /**
   * Over any sequence of runs and crashes, with L1 reorganised between them as
   * it likes: while no run finds a cursor above the common ancestor, every
   * source has ingested each canonical block up to its cursor exactly once and
   * in order.
   */
  lemma {:induction false} SteadyRunsCover(
      st: Store, sources: seq<string>, maxBlocks: nat, oracles: seq<Oracle>, chains: seq<nat -> Block>)
    requires Sound(st, sources) && SteadyRuns(st, sources, maxBlocks, oracles, chains)
    ensures Sound(Runs(st, sources, maxBlocks, oracles), sources)
  {
    if oracles != [] {
      var n := |oracles| - 1;
      forall k | 0 <= k < n
        ensures SteadyRun(Runs(st, sources, maxBlocks, oracles[..n][..k]), sources, oracles[..n][k], chains[..n][k])
      {
        assert oracles[..n][..k] == oracles[..k];
      }
      SteadyRunsCover(st, sources, maxBlocks, oracles[..n], chains[..n]);
      var before := Runs(st, sources, maxBlocks, oracles[..n]);
      assert SteadyRun(before, sources, oracles[n], chains[n]);
      StableRunIsSafe(before, sources, maxBlocks, oracles[n], chains[n]);
      RunKeepsSound(before, sources, maxBlocks, oracles[n]);
    }
  }

  // ----- Exactly when a reorganisation leaves a hole

  lemma {:induction false} SourceOutcome(
      p: Progress, sources: seq<string>, number: nat, hash: Hash, records: (string, nat) -> bool, source: string)
    ensures var after := SourceSteps(p, sources, number, hash, records);
            var anchor := p.st.anchor.number;
            && after.st.anchor == p.st.anchor
            && (!after.aborted ==>
                  if source in sources && Reached(p.mem, anchor, source) < number then
                    && Reached(after.mem, anchor, source) == number == DurableAt(after.st, source)
                    && Logged(after.st, source) == Logged(p.st, source) + [Entry(number, hash)]
                  else
                    && Reached(after.mem, anchor, source) == Reached(p.mem, anchor, source)
                    && DurableAt(after.st, source) == DurableAt(p.st, source)
                    && Logged(after.st, source) == Logged(p.st, source))
  {
    if sources != [] {
      var front, next := sources[..|sources| - 1], sources[|sources| - 1];
      SourceOutcome(p, front, number, hash, records, source);
      assert source in sources <==> source in front || source == next;
    }
  }

  lemma Retracted(st: Store, source: string, number: nat, block: Block)
    requires IsReorg(st, number, Some(block))
    ensures var after := Record(st, number, block).value;
            && after.anchor == st.anchor && Logged(after, source) == Before(Logged(st, source), number)
            && (source in st.cursors ==> DurableAt(after, source) == number - 1)
            && forall k :: k in st.journal && k < number ==> k in after.journal && after.journal[k] == st.journal[k]
  {
  }

  /** The first block of the new branch: the durable cursor falls to the common ancestor, memory does not. */
  lemma ReorgAt(st: Store, source: string, number: nat, block: Block)
    requires Chained(st) && Covered(st, source) && number > st.anchor.number && DurableAt(st, source) >= number
    requires number in st.journal && IsReorg(st, number, Some(block))
    ensures var after := Record(st, number, block).value;
            && HeadOf(after) == number && Chained(after) && after.anchor == st.anchor
            && DurableAt(after, source) == number - 1
            && Logged(after, source) == Canon(after.journal, st.anchor.number, number - 1)
  {
    RecordKeepsChain(st, number, block);
    Retracted(st, source, number, block);
    RetractedCoverage(st, Record(st, number, block).value, source, number);
  }

  lemma RetractedCoverage(st: Store, after: Store, source: string, number: nat)
    requires Chained(st) && Covered(st, source) && st.anchor.number < number <= DurableAt(st, source)
    requires after.anchor == st.anchor && Logged(after, source) == Before(Logged(st, source), number)
    requires source in st.cursors ==> DurableAt(after, source) == number - 1
    requires forall k :: k in st.journal && k < number ==> k in after.journal && after.journal[k] == st.journal[k]
    ensures DurableAt(after, source) == number - 1
    ensures Logged(after, source) == Canon(after.journal, st.anchor.number, number - 1)
  {
    CanonCut(st.journal, st.anchor.number, DurableAt(st, source), number);
    CanonAgrees(st.journal, after.journal, st.anchor.number, number - 1);
  }

  /** Above the head a block is only appended. */
  lemma AppendAt(p: Progress, source: string, number: nat, block: Block, to: nat)
    requires Chained(p.st) && HeadOf(p.st) == number - 1 && to <= number - 1
    requires !RecordStep(p, number, block).aborted && !p.aborted
    ensures var after := RecordStep(p, number, block);
            && Chained(after.st) && HeadOf(after.st) == number && after.mem == p.mem && after.st.anchor == p.st.anchor
            && DurableAt(after.st, source) == DurableAt(p.st, source) && Logged(after.st, source) == Logged(p.st, source)
            && Canon(after.st.journal, p.st.anchor.number, to) == Canon(p.st.journal, p.st.anchor.number, to)
  {
    RecordKeepsChain(p.st, number, block);
    CanonAgrees(p.st.journal, RecordStep(p, number, block).st.journal, p.st.anchor.number, to);
  }

  lemma NothingAbove(st: Store, number: nat, block: Option<Block>)
    requires Chained(st) && HeadOf(st) == number - 1
    ensures !IsReorg(st, number, block)
  {
    assert forall h :: h in st.journal ==> h < number;
  }

  /** The effect of a block that is appended, on the chain and on one source. */
  lemma BlockOutcome(p: Progress, sources: seq<string>, source: string, k: nat, to: nat, o: Oracle)
    requires Chained(p.st) && !p.aborted && HeadOf(p.st) == k - 1 && to <= k - 1
    requires !BlockStep(p, sources, k, o).aborted
    ensures var after, anchor := BlockStep(p, sources, k, o), p.st.anchor.number;
            && Chained(after.st) && HeadOf(after.st) == k && after.st.anchor == p.st.anchor
            && Canon(after.st.journal, anchor, to) == Canon(p.st.journal, anchor, to)
            && (if source in sources && Reached(p.mem, anchor, source) < k then
                  && Reached(after.mem, anchor, source) == k == DurableAt(after.st, source)
                  && |Logged(after.st, source)| == |Logged(p.st, source)| + 1
                else
                  && Reached(after.mem, anchor, source) == Reached(p.mem, anchor, source)
                  && DurableAt(after.st, source) == DurableAt(p.st, source)
                  && Logged(after.st, source) == Logged(p.st, source))
  {
    var block := o.blocks(k).value;
    var recorded := RecordStep(p, k, block);
    AppendAt(p, source, k, block, to);
    SourcesKeepJournal(recorded, sources, k, block.hash, o.records);
    SourcesKeepChain(recorded, sources, k, block.hash, o.records);
    SourceOutcome(recorded, sources, k, block.hash, o.records, source);
  }

  /** Where a source stands after the new branch has been followed from `number` to `k`; `m` is where memory had it. */
  predicate Passed(p: Progress, source: string, number: nat, m: nat, k: nat) {
    var anchor := p.st.anchor.number;
    && HeadOf(p.st) == k
    && if k <= m then
         && Reached(p.mem, anchor, source) == m && DurableAt(p.st, source) == number - 1
         && Logged(p.st, source) == Canon(p.st.journal, anchor, number - 1)
       else
         && Reached(p.mem, anchor, source) == k == DurableAt(p.st, source)
         && |Logged(p.st, source)| == k - anchor - (m - number + 1)
  }

  lemma PassedStep(p: Progress, sources: seq<string>, source: string, number: nat, m: nat, k: nat, o: Oracle)
    requires Chained(p.st) && !p.aborted && p.st.anchor.number < number <= m && number < k && source in sources
    requires Passed(p, source, number, m, k - 1) && !BlockStep(p, sources, k, o).aborted
    ensures Passed(BlockStep(p, sources, k, o), source, number, m, k) && Chained(BlockStep(p, sources, k, o).st)
    ensures BlockStep(p, sources, k, o).st.anchor == p.st.anchor
  {
    BlockOutcome(p, sources, source, k, number - 1, o);
  }

  lemma PassedStart(p: Progress, sources: seq<string>, source: string, number: nat, o: Oracle)
    requires Chained(p.st) && !p.aborted && OnTrack(p, source) && source in sources && number > p.st.anchor.number
    requires DurableAt(p.st, source) >= number && number in p.st.journal && IsReorg(p.st, number, o.blocks(number))
    requires !BlockStep(p, sources, number, o).aborted
    ensures var after := BlockStep(p, sources, number, o);
            && Passed(after, source, number, DurableAt(p.st, source), number) && Chained(after.st)
            && after.st.anchor == p.st.anchor
  {
    var block := o.blocks(number).value;
    ReorgAt(p.st, source, number, block);
    var recorded := RecordStep(p, number, block);
    SourcesKeepJournal(recorded, sources, number, block.hash, o.records);
    SourcesKeepChain(recorded, sources, number, block.hash, o.records);
    SourceOutcome(recorded, sources, number, block.hash, o.records, source);
  }

  lemma {:induction false} PassedOver(p: Progress, sources: seq<string>, source: string, number: nat, last: nat, o: Oracle)
    requires Chained(p.st) && !p.aborted && OnTrack(p, source) && source in sources && number > p.st.anchor.number
    requires DurableAt(p.st, source) >= number && number in p.st.journal && IsReorg(p.st, number, o.blocks(number))
    requires number <= last && !BlockSteps(p, sources, number, last, o).aborted
    ensures var after := BlockSteps(p, sources, number, last, o);
            Passed(after, source, number, DurableAt(p.st, source), last) && Chained(after.st)
            && after.st.anchor == p.st.anchor
    decreases last
  {
    var before := BlockSteps(p, sources, number, last - 1, o);
    if last == number {
      PassedStart(p, sources, source, number, o);
    } else {
      PassedOver(p, sources, source, number, last - 1, o);
      PassedStep(before, sources, source, number, DurableAt(p.st, source), last, o);
    }
  }

  lemma ReorgSetsHead(p: Progress, sources: seq<string>, number: nat, o: Oracle)
    requires Chained(p.st) && !p.aborted && number in p.st.journal && IsReorg(p.st, number, o.blocks(number))
    requires !BlockStep(p, sources, number, o).aborted
    ensures HeadOf(BlockStep(p, sources, number, o).st) == number && Chained(BlockStep(p, sources, number, o).st)
  {
    var block := o.blocks(number).value;
    RecordKeepsChain(p.st, number, block);
    SourcesKeepJournal(RecordStep(p, number, block), sources, number, block.hash, o.records);
    SourcesKeepChain(RecordStep(p, number, block), sources, number, block.hash, o.records);
  }

  lemma {:induction false} HeadFollows(p: Progress, sources: seq<string>, number: nat, last: nat, o: Oracle)
    requires Chained(p.st) && !p.aborted
    requires number in p.st.journal && IsReorg(p.st, number, o.blocks(number))
    requires number <= last && !BlockSteps(p, sources, number, last, o).aborted
    ensures HeadOf(BlockSteps(p, sources, number, last, o).st) == last && Chained(BlockSteps(p, sources, number, last, o).st)
    decreases last
  {
    if last == number {
      ReorgSetsHead(p, sources, number, o);
    } else {
      HeadFollows(p, sources, number, last - 1, o);
      BlockOutcome(BlockSteps(p, sources, number, last - 1, o), sources, "", last, 0, o);
    }
  }

  lemma BehindIsSafeAt(p: Progress, sources: seq<string>, source: string, number: nat, k: nat, o: Oracle)
    requires Chained(p.st) && !p.aborted && number <= k
    requires number in p.st.journal && IsReorg(p.st, number, o.blocks(number))
    requires Reached(p.mem, p.st.anchor.number, source) < number
    ensures SafeBlock(p, sources, source, number, k, o)
  {
    var before := BlockSteps(p, sources, number, k - 1, o);
    if k > number && !before.aborted {
      HeadFollows(p, sources, number, k - 1, o);
      NothingAbove(before.st, k, o.blocks(k));
    }
  }

  lemma BehindIsSafe(p: Progress, sources: seq<string>, source: string, number: nat, last: nat, o: Oracle)
    requires Chained(p.st) && !p.aborted && number <= last
    requires number in p.st.journal && IsReorg(p.st, number, o.blocks(number))
    requires Reached(p.mem, p.st.anchor.number, source) < number
    ensures SafeBlocks(p, sources, source, number, last, o)
  {
    forall k: nat | number <= k <= last ensures SafeBlock(p, sources, source, number, k, o) {
      BehindIsSafeAt(p, sources, source, number, k, o);
    }
  }

  /**
   * A run reaches a block that replaces another and follows the new branch
   * from there to `last`. A source is still covered exactly when it had not
   * reached that block in this run, or the run stops before it ingests again.
   */
  lemma ReorgCoverageIff(p: Progress, sources: seq<string>, source: string, number: nat, last: nat, o: Oracle)
    requires Chained(p.st) && !p.aborted && OnTrack(p, source) && source in sources
    requires number > p.st.anchor.number && DurableAt(p.st, source) >= number - 1
    requires number in p.st.journal && IsReorg(p.st, number, o.blocks(number))
    requires number <= last && !BlockSteps(p, sources, number, last, o).aborted
    ensures Covered(BlockSteps(p, sources, number, last, o).st, source)
            <==> DurableAt(p.st, source) < number || last <= DurableAt(p.st, source)
  {
    if DurableAt(p.st, source) < number {
      BehindIsSafe(p, sources, source, number, last, o);
      BlocksKeepTrack(p, sources, source, number, last, o);
    } else {
      PassedOver(p, sources, source, number, last, o);
    }
  }
}
