/** What the follower's runs keep: a linked journal, full coverage by every source, and a floor everyone reached. */
module IndexerCoverage {
  import opened Wrappers
  import opened Indexer

  // ----- The journal stays one linked chain

  function HeadOf(st: Store): nat {
    if st.head.Some? then st.head.value else st.anchor.number
  }

  predicate IsCanonical(st: Store, e: Entry) {
    e == st.anchor || (e.number in st.journal && st.journal[e.number].hash == e.hash)
  }

  /** The canonical blocks are exactly those above the anchor up to the head, each on its parent; the floor is one of them. */
  ghost predicate Chained(st: Store) {
    && st.anchor.number <= HeadOf(st)
    && (forall k: nat :: k in st.journal <==> st.anchor.number < k <= HeadOf(st))
    && (forall k :: k in st.journal && k - 1 in st.journal ==> st.journal[k].parent == st.journal[k - 1].hash)
    && (st.anchor.number + 1 in st.journal ==> st.journal[st.anchor.number + 1].parent == st.anchor.hash)
    && IsCanonical(st, st.floor)
  }

  lemma RecordKeepsChain(st: Store, number: nat, block: Block)
    requires Chained(st) && Record(st, number, block).Some?
    requires number in st.journal ==> st.journal[number].hash != block.hash
    ensures Chained(Record(st, number, block).value)
    ensures HeadOf(Record(st, number, block).value) == number
    ensures number - 1 <= HeadOf(st) && st.floor.number < number
  {
  }

  /** What a step of the block loop never touches. */
  predicate SameFrame(before: Store, after: Store) {
    before.anchor == after.anchor && before.floor == after.floor
  }

  lemma {:induction false} SourcesKeepJournal(
      p: Progress, sources: seq<string>, number: nat, hash: Hash, records: (string, nat) -> bool)
    ensures var after := SourceSteps(p, sources, number, hash, records);
            SameFrame(p.st, after.st) && after.st.journal == p.st.journal && after.st.head == p.st.head
  {
    if sources != [] {
      SourcesKeepJournal(p, sources[..|sources| - 1], number, hash, records);
    }
  }

  lemma ChainedAlike(a: Store, b: Store)
    requires Chained(a) && SameFrame(a, b) && a.journal == b.journal && a.head == b.head
    ensures Chained(b)
  {
  }

  lemma SourcesKeepChain(p: Progress, sources: seq<string>, number: nat, hash: Hash, records: (string, nat) -> bool)
    requires Chained(p.st)
    ensures Chained(SourceSteps(p, sources, number, hash, records).st)
    ensures SameFrame(p.st, SourceSteps(p, sources, number, hash, records).st)
  {
    SourcesKeepJournal(p, sources, number, hash, records);
    ChainedAlike(p.st, SourceSteps(p, sources, number, hash, records).st);
  }

  lemma RecordStepKeepsChain(p: Progress, number: nat, block: Block)
    requires Chained(p.st)
    ensures Chained(RecordStep(p, number, block).st) && SameFrame(p.st, RecordStep(p, number, block).st)
  {
    if !(number in p.st.journal && p.st.journal[number].hash == block.hash) && ParentKnown(p.st, number, block) {
      RecordKeepsChain(p.st, number, block);
    }
  }

  lemma BlockKeepsChain(p: Progress, sources: seq<string>, number: nat, o: Oracle)
    requires Chained(p.st) && !p.aborted
    ensures Chained(BlockStep(p, sources, number, o).st) && SameFrame(p.st, BlockStep(p, sources, number, o).st)
  {
    if o.blocks(number).Some? {
      var block := o.blocks(number).value;
      RecordStepKeepsChain(p, number, block);
      SourcesKeepChain(RecordStep(p, number, block), sources, number, block.hash, o.records);
    }
  }

  /** Whatever is answered, and wherever the loop stops, the journal is one chain and the floor is on it. */
  lemma {:induction false} BlocksKeepChain(p: Progress, sources: seq<string>, first: nat, last: int, o: Oracle)
    requires Chained(p.st) && !p.aborted
    ensures var after := BlockSteps(p, sources, first, last, o); Chained(after.st) && SameFrame(p.st, after.st)
    decreases last
  {
    if first <= last {
      BlocksKeepChain(p, sources, first, last - 1, o);
      var before := BlockSteps(p, sources, first, last - 1, o);
      if !before.aborted {
        BlockKeepsChain(before, sources, last, o);
      }
    }
  }

  // ----- Coverage by one source

  /** The canonical blocks above `from` up to `to`, in ascending order. */
  function Canon(journal: map<nat, Block>, from: nat, to: nat): (s: seq<Entry>)
    ensures |s| == if to <= from then 0 else to - from
  {
    if to <= from then []
    else Canon(journal, from, to - 1) + [Entry(to, if to in journal then journal[to].hash else "")]
  }

  function DurableAt(st: Store, source: string): nat {
    if source in st.cursors then st.cursors[source].number else st.anchor.number
  }

  /** The source has ingested each canonical block above the anchor up to its cursor exactly once, in order. */
  predicate Covered(st: Store, source: string) {
    && st.anchor.number <= DurableAt(st, source) <= HeadOf(st)
    && Logged(st, source) == Canon(st.journal, st.anchor.number, DurableAt(st, source))
  }

  lemma {:induction false} CanonAgrees(a: map<nat, Block>, b: map<nat, Block>, from: nat, to: nat)
    requires forall k :: from < k <= to ==> k in a && k in b && a[k].hash == b[k].hash
    ensures Canon(a, from, to) == Canon(b, from, to)
  {
    if to > from {
      CanonAgrees(a, b, from, to - 1);
    }
  }

  lemma BeforePush(log: seq<Entry>, e: Entry, number: nat)
    ensures Before(log + [e], number) == if e.number < number then Before(log, number) + [e] else Before(log, number)
  {
    assert (log + [e])[..|log|] == log;
  }

  function CanonEntry(journal: map<nat, Block>, at: nat): Entry {
    Entry(at, if at in journal then journal[at].hash else "")
  }

  lemma CanonPush(journal: map<nat, Block>, from: nat, to: nat)
    requires from < to
    ensures Canon(journal, from, to) == Canon(journal, from, to - 1) + [CanonEntry(journal, to)]
  {
  }

  lemma {:induction false} CanonBelow(journal: map<nat, Block>, from: nat, to: nat, number: nat)
    requires to < number
    ensures Before(Canon(journal, from, to), number) == Canon(journal, from, to)
  {
    if to > from {
      CanonBelow(journal, from, to - 1, number);
      CanonPush(journal, from, to);
      BeforePush(Canon(journal, from, to - 1), CanonEntry(journal, to), number);
    }
  }

  /** Retracting from a height keeps exactly what lies below it. */
  lemma {:induction false} CanonCut(journal: map<nat, Block>, from: nat, to: nat, number: nat)
    requires from < number && number - 1 <= to
    ensures Before(Canon(journal, from, to), number) == Canon(journal, from, number - 1)
  {
    if to < number {
      CanonBelow(journal, from, to, number);
    } else {
      CanonCut(journal, from, to - 1, number);
      CanonPush(journal, from, to);
      BeforePush(Canon(journal, from, to - 1), CanonEntry(journal, to), number);
    }
  }

  predicate Synced(p: Progress, source: string) {
    Reached(p.mem, p.st.anchor.number, source) == DurableAt(p.st, source)
  }

  /** The loop's view of a source: its cursor is covered, memory and disk agree, and the floor is behind it. */
  predicate OnTrack(p: Progress, source: string) {
    Covered(p.st, source) && Synced(p, source) && p.st.floor.number <= DurableAt(p.st, source)
  }

  /** The block about to be recorded replaces another. */
  predicate IsReorg(st: Store, number: nat, block: Option<Block>) {
    block.Some? && ParentKnown(st, number, block.value) && Replaces(st, number, block.value)
  }

  /** A block that replaces another is recorded only where the source has not got that far in this run. */
  predicate NotPassed(p: Progress, source: string, number: nat, o: Oracle) {
    IsReorg(p.st, number, o.blocks(number)) ==> Reached(p.mem, p.st.anchor.number, source) < number
  }

  lemma RecordKeepsCovered(st: Store, source: string, number: nat, block: Block)
    requires Chained(st) && Covered(st, source) && Record(st, number, block).Some?
    requires number in st.journal ==> st.journal[number].hash != block.hash
    requires number - 1 <= DurableAt(st, source) < number
    ensures var after := Record(st, number, block).value;
            Covered(after, source) && DurableAt(after, source) == DurableAt(st, source)
  {
    RecordKeepsChain(st, number, block);
    var after, c, a := Record(st, number, block).value, DurableAt(st, source), st.anchor.number;
    CanonAgrees(st.journal, after.journal, a, c);
    CanonBelow(st.journal, a, c, number);
  }

  lemma RecordKeepsTrack(p: Progress, source: string, number: nat, block: Block)
    requires Chained(p.st) && OnTrack(p, source) && !p.aborted
    requires number >= 1 && DurableAt(p.st, source) >= number - 1
    requires IsReorg(p.st, number, Some(block)) ==> DurableAt(p.st, source) < number
    ensures var after := RecordStep(p, number, block);
            && OnTrack(after, source) && DurableAt(after.st, source) == DurableAt(p.st, source)
            && (!after.aborted ==> number in after.st.journal && after.st.journal[number].hash == block.hash)
  {
    if !(number in p.st.journal && p.st.journal[number].hash == block.hash) && ParentKnown(p.st, number, block) {
      assert DurableAt(p.st, source) < number;
      RecordKeepsCovered(p.st, source, number, block);
    }
  }

  lemma OwnStepKeepsTrack(p: Progress, source: string, number: nat, hash: Hash, ok: bool)
    requires Chained(p.st) && OnTrack(p, source)
    requires number in p.st.journal && p.st.journal[number].hash == hash
    requires number - 1 <= DurableAt(p.st, source)
    ensures var after := SourceStep(p, source, number, hash, ok);
            && OnTrack(after, source) && DurableAt(p.st, source) <= DurableAt(after.st, source)
            && (!after.aborted ==> DurableAt(after.st, source) >= number)
  {
  }

  lemma OtherStepKeepsTrack(p: Progress, source: string, number: nat, hash: Hash, ok: bool, other: string)
    requires source != other
    ensures var after := SourceStep(p, source, number, hash, ok);
            && (OnTrack(p, other) ==> OnTrack(after, other)) && DurableAt(after.st, other) == DurableAt(p.st, other)
            && Reached(after.mem, p.st.anchor.number, other) == Reached(p.mem, p.st.anchor.number, other)
            && Logged(after.st, other) == Logged(p.st, other)
  {
  }

  lemma StepKeepsTrack(p: Progress, next: string, number: nat, hash: Hash, ok: bool, source: string)
    requires Chained(p.st) && OnTrack(p, source)
    requires number in p.st.journal && p.st.journal[number].hash == hash && number - 1 <= DurableAt(p.st, source)
    ensures var after := SourceStep(p, next, number, hash, ok);
            && Chained(after.st) && OnTrack(after, source) && after.st.journal == p.st.journal
            && DurableAt(p.st, source) <= DurableAt(after.st, source)
            && (!after.aborted && next == source ==> DurableAt(after.st, source) >= number)
  {
    if next == source {
      OwnStepKeepsTrack(p, source, number, hash, ok);
    } else {
      OtherStepKeepsTrack(p, next, number, hash, ok, source);
    }
  }

  lemma {:induction false} SourcesKeepTrack(
      p: Progress, sources: seq<string>, number: nat, hash: Hash, records: (string, nat) -> bool, source: string)
    requires Chained(p.st) && !p.aborted && OnTrack(p, source)
    requires number in p.st.journal && p.st.journal[number].hash == hash && number - 1 <= DurableAt(p.st, source)
    ensures var after := SourceSteps(p, sources, number, hash, records);
            && Chained(after.st) && OnTrack(after, source) && after.st.journal == p.st.journal
            && DurableAt(p.st, source) <= DurableAt(after.st, source)
            && (!after.aborted && source in sources ==> DurableAt(after.st, source) >= number)
  {
    if sources != [] {
      var front, next := sources[..|sources| - 1], sources[|sources| - 1];
      SourcesKeepTrack(p, front, number, hash, records, source);
      assert source in sources ==> source in front || source == next;
      var before := SourceSteps(p, front, number, hash, records);
      if !before.aborted {
        StepKeepsTrack(before, next, number, hash, records(next, number), source);
      }
    }
  }

  lemma BlockKeepsTrack(p: Progress, sources: seq<string>, source: string, number: nat, o: Oracle)
    requires Chained(p.st) && !p.aborted && OnTrack(p, source) && number >= 1 && DurableAt(p.st, source) >= number - 1
    requires NotPassed(p, source, number, o) && source in sources
    ensures var after := BlockStep(p, sources, number, o);
            && OnTrack(after, source) && (!after.aborted ==> DurableAt(after.st, source) >= number)
            && DurableAt(after.st, source) >= number - 1
  {
    if o.blocks(number).Some? {
      var block := o.blocks(number).value;
      var recorded := RecordStep(p, number, block);
      RecordKeepsTrack(p, source, number, block);
      if !recorded.aborted {
        if !(number in p.st.journal && p.st.journal[number].hash == block.hash) {
          RecordKeepsChain(p.st, number, block);
        }
        SourcesKeepTrack(recorded, sources, number, block.hash, o.records, source);
      }
    }
  }

  predicate SafeBlock(p: Progress, sources: seq<string>, source: string, first: nat, number: nat, o: Oracle) {
    var before := BlockSteps(p, sources, first, number - 1, o);
    !before.aborted ==> NotPassed(before, source, number, o)
  }

  /** Each replacement this run makes meets the guard for this source. */
  ghost predicate SafeBlocks(p: Progress, sources: seq<string>, source: string, first: nat, last: int, o: Oracle) {
    forall number: nat :: first <= number <= last ==> SafeBlock(p, sources, source, first, number, o)
  }

  lemma {:induction false} BlocksKeepTrack(p: Progress, sources: seq<string>, source: string, first: nat, last: int, o: Oracle)
    requires source in sources && Chained(p.st) && !p.aborted && OnTrack(p, source)
    requires first >= 1 && DurableAt(p.st, source) >= first - 1
    requires SafeBlocks(p, sources, source, first, last, o)
    ensures var after := BlockSteps(p, sources, first, last, o);
            OnTrack(after, source) && (!after.aborted && first - 1 <= last ==> DurableAt(after.st, source) >= last)
    decreases last
  {
    if first <= last {
      BlocksKeepTrack(p, sources, source, first, last - 1, o);
      BlocksKeepChain(p, sources, first, last - 1, o);
      var before := BlockSteps(p, sources, first, last - 1, o);
      if !before.aborted {
        assert SafeBlock(p, sources, source, first, last, o);
        BlockKeepsTrack(before, sources, source, last, o);
      }
    }
  }

  // ----- Whole runs

  /** Between runs: one linked journal, every source covering what its cursor claims, nobody below the floor. */
  ghost predicate Sound(st: Store, sources: seq<string>) {
    Chained(st) && forall s :: s in sources ==> Covered(st, s) && st.floor.number <= DurableAt(st, s)
  }

  ghost predicate SafeRun(st: Store, sources: seq<string>, maxBlocks: nat, o: Oracle) {
    o.latest.Some? && RunAncestor(st, o).Ok? ==>
      var ancestor := RunAncestor(st, o).value;
      var mem := ReadCursors(st);
      forall s :: s in sources ==>
        SafeBlocks(Progress(st, mem, false), sources, s, MinimumCursor(mem, st.anchor.number, sources, ancestor) + 1,
                   RunLast(st, sources, maxBlocks, ancestor, o.latest.value), o)
  }

  lemma {:induction false} MinimumIsBelow(mem: map<string, nat>, anchor: nat, sources: seq<string>, ancestor: nat)
    requires ancestor >= anchor && forall s :: s in sources ==> Reached(mem, anchor, s) >= anchor
    ensures MinimumCursor(mem, anchor, sources, ancestor) >= anchor
    ensures forall s :: s in sources ==> Reached(mem, anchor, s) >= MinimumCursor(mem, anchor, sources, ancestor)
  {
    if sources != [] {
      MinimumIsBelow(mem, anchor, sources[..|sources| - 1], ancestor);
      assert sources == sources[..|sources| - 1] + [sources[|sources| - 1]];
    }
  }

  lemma StartsOnTrack(st: Store, sources: seq<string>, source: string)
    requires Sound(st, sources) && source in sources
    ensures OnTrack(Progress(st, ReadCursors(st), false), source)
  {
    assert Covered(st, source);
  }

  lemma AncestorAboveAnchor(st: Store, o: Oracle)
    requires Chained(st) && RunAncestor(st, o).Ok?
    ensures RunAncestor(st, o).value >= st.anchor.number
  {
    if st.head.Some? {
      AncestorIsGreatest(st, o.ancestors, st.head.value);
    }
  }

  lemma EveryoneStartsBelow(st: Store, sources: seq<string>, ancestor: nat, source: string)
    requires Sound(st, sources) && ancestor >= st.anchor.number && source in sources
    ensures DurableAt(st, source) >= MinimumCursor(ReadCursors(st), st.anchor.number, sources, ancestor)
  {
    var mem := ReadCursors(st);
    forall s | s in sources ensures Reached(mem, st.anchor.number, s) == DurableAt(st, s) >= st.anchor.number {
      assert Covered(st, s);
    }
    MinimumIsBelow(mem, st.anchor.number, sources, ancestor);
  }

  lemma FloorKeepsSound(p: Progress, sources: seq<string>, o: Oracle)
    requires Chained(p.st) && forall s :: s in sources ==> OnTrack(p, s)
    ensures Sound(p.st, sources) && Sound(FloorStep(p, sources, o), sources)
  {
    var after := FloorStep(p, sources, o);
    forall s | s in sources
      ensures Covered(p.st, s) && p.st.floor.number <= DurableAt(p.st, s)
      ensures Covered(after, s) && after.floor.number <= DurableAt(after, s)
    {
      assert OnTrack(p, s);
      var i :| 0 <= i < |sources| && sources[i] == s;
    }
  }

  lemma RunBlocksKeepChain(st: Store, sources: seq<string>, maxBlocks: nat, ancestor: nat, latest: nat, o: Oracle)
    requires Chained(st)
    ensures var p := RunBlocks(st, sources, maxBlocks, ancestor, latest, o); Chained(p.st) && SameFrame(st, p.st)
  {
    var mem := ReadCursors(st);
    var start := MinimumCursor(mem, st.anchor.number, sources, ancestor) + 1;
    BlocksKeepChain(Progress(st, mem, false), sources, start, RunLast(st, sources, maxBlocks, ancestor, latest), o);
  }

  lemma RunBlocksKeepTrack(
      st: Store, sources: seq<string>, maxBlocks: nat, ancestor: nat, latest: nat, o: Oracle, source: string)
    requires Sound(st, sources) && source in sources && ancestor >= st.anchor.number
    requires SafeBlocks(Progress(st, ReadCursors(st), false), sources, source,
                        MinimumCursor(ReadCursors(st), st.anchor.number, sources, ancestor) + 1,
                        RunLast(st, sources, maxBlocks, ancestor, latest), o)
    ensures OnTrack(RunBlocks(st, sources, maxBlocks, ancestor, latest, o), source)
  {
    var mem := ReadCursors(st);
    var start := MinimumCursor(mem, st.anchor.number, sources, ancestor) + 1;
    StartsOnTrack(st, sources, source);
    EveryoneStartsBelow(st, sources, ancestor, source);
    BlocksKeepTrack(Progress(st, mem, false), sources, source, start,
                    RunLast(st, sources, maxBlocks, ancestor, latest), o);
  }

  lemma EndKeepsSound(p: Progress, sources: seq<string>, o: Oracle)
    requires Chained(p.st) && forall s :: s in sources ==> OnTrack(p, s)
    ensures Sound(RunEnd(p, sources, o), sources)
  {
    FloorKeepsSound(p, sources, o);
  }

  lemma RunKeepsSound(st: Store, sources: seq<string>, maxBlocks: nat, o: Oracle)
    requires Sound(st, sources) && SafeRun(st, sources, maxBlocks, o)
    ensures Sound(RunOnce(st, sources, maxBlocks, o), sources)
  {
    if o.latest.Some? && RunAncestor(st, o).Ok? {
      var ancestor, latest := RunAncestor(st, o).value, o.latest.value;
      AncestorAboveAnchor(st, o);
      RunBlocksKeepChain(st, sources, maxBlocks, ancestor, latest, o);
      forall s | s in sources ensures OnTrack(RunBlocks(st, sources, maxBlocks, ancestor, latest, o), s) {
        RunBlocksKeepTrack(st, sources, maxBlocks, ancestor, latest, o, s);
      }
      EndKeepsSound(RunBlocks(st, sources, maxBlocks, ancestor, latest, o), sources, o);
    }
  }

  /**
   * Over any sequence of runs, crashes included, that meet the guard: every
   * source has ingested each canonical block up to its cursor exactly once and
   * in order, and the floor is a canonical block every source has reached.
   */
  lemma {:induction false} CoverageHolds(st: Store, sources: seq<string>, maxBlocks: nat, oracles: seq<Oracle>)
    requires Sound(st, sources)
    requires forall k :: 0 <= k < |oracles| ==> SafeRun(Runs(st, sources, maxBlocks, oracles[..k]), sources, maxBlocks, oracles[k])
    ensures Sound(Runs(st, sources, maxBlocks, oracles), sources)
  {
    if oracles != [] {
      var front := oracles[..|oracles| - 1];
      forall k | 0 <= k < |front|
        ensures SafeRun(Runs(st, sources, maxBlocks, front[..k]), sources, maxBlocks, front[k])
      {
        assert front[..k] == oracles[..k];
      }
      CoverageHolds(st, sources, maxBlocks, front);
      RunKeepsSound(Runs(st, sources, maxBlocks, front), sources, maxBlocks, oracles[|oracles| - 1]);
    }
  }

  /** A follower that has just been anchored is sound: it has everything still to do. */
  lemma FreshIsSound(anchor: Entry, sources: seq<string>)
    ensures Sound(Store(anchor, anchor, map[], None, map[], map[]), sources)
  {
  }

  lemma EndMovesFloorUp(p: Progress, sources: seq<string>, o: Oracle)
    requires Chained(p.st)
    ensures var after := RunEnd(p, sources, o);
            && Chained(after)
            && (after.floor == p.st.floor || (o.finalized == Some(after.floor) && after.floor.number >= p.st.floor.number))
  {
  }

  /** In any run whatever, the floor stays or moves up to the agreed finalized block, and the journal stays one chain. */
  lemma FloorOnlyAdvances(st: Store, sources: seq<string>, maxBlocks: nat, o: Oracle)
    requires Chained(st)
    ensures Chained(RunOnce(st, sources, maxBlocks, o))
    ensures var after := RunOnce(st, sources, maxBlocks, o).floor;
            after == st.floor || (o.finalized == Some(after) && after.number >= st.floor.number)
  {
    if o.latest.Some? && RunAncestor(st, o).Ok? {
      var ancestor, latest := RunAncestor(st, o).value, o.latest.value;
      RunBlocksKeepChain(st, sources, maxBlocks, ancestor, latest, o);
      EndMovesFloorUp(RunBlocks(st, sources, maxBlocks, ancestor, latest, o), sources, o);
    }
  }
}
