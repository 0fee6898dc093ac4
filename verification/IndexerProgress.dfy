/** What a run achieves when it is answered: how far every source gets, and exactly when the floor moves. */
module IndexerProgress {
  import opened Wrappers
  import opened Indexer
  import opened IndexerCoverage
  import opened IndexerReorgs

  // ----- The floor

  /**
   * The floor moves exactly when the run ended well, the finalized block is
   * canonical, every source has reached it, its blobs are archived, and it
   * takes the floor no lower and to no other hash at its height. Nothing else changes.
   */
  lemma FloorMovesIff(st: Store, sources: seq<string>, maxBlocks: nat, o: Oracle)
    requires o.latest.Some? && RunAncestor(st, o).Ok?
    ensures var p := RunBlocks(st, sources, maxBlocks, RunAncestor(st, o).value, o.latest.value, o);
            var after := RunOnce(st, sources, maxBlocks, o);
            && after == p.st.(floor := after.floor)
            && after.floor ==
               if && !p.aborted && o.observed && o.blobsReady && o.floorOpen && o.finalized.Some?
                  && var f := o.finalized.value;
                  && (forall s :: s in sources ==>
                       if s in p.mem then p.mem[s] >= f.number else p.st.anchor.number >= f.number)
                  && f.number in p.st.journal && p.st.journal[f.number].hash == f.hash
                  && f.number >= p.st.anchor.number && f.number >= p.st.floor.number
                  && (f.number == p.st.floor.number ==> f.hash == p.st.floor.hash)
               then o.finalized.value else p.st.floor
  {
    var p := RunBlocks(st, sources, maxBlocks, RunAncestor(st, o).value, o.latest.value, o);
    if o.finalized.Some? {
      var f := o.finalized.value.number;
      assert EveryoneReached(p.mem, p.st.anchor.number, sources, f)
             <==> forall s :: s in sources ==> Reached(p.mem, p.st.anchor.number, s) >= f;
    }
  }

  // ----- How far a run gets

  /** Every source's records of this block could be read. */
  predicate Readable(o: Oracle, sources: seq<string>, number: nat) {
    o.blocks(number).Some? && forall s :: s in sources ==> o.records(s, number)
  }

  /** The journal reaches this height, on the chain, with the floor and the anchor under it. */
  ghost predicate Grounded(st: Store, chain: nat -> Block, ancestor: nat, done: int) {
    && done <= HeadOf(st) && ancestor <= HeadOf(st) && st.floor.number <= ancestor
    && chain(st.anchor.number).hash == st.anchor.hash
  }

  lemma RecordIsTaken(p: Progress, chain: nat -> Block, ancestor: nat, number: nat)
    requires Chained(p.st) && Linked(chain) && !p.aborted && number > p.st.anchor.number
    requires AgreesUpTo(p.st, chain, Later(ancestor, number - 1)) && Grounded(p.st, chain, ancestor, number - 1)
    ensures var after := RecordStep(p, number, chain(number));
            !after.aborted && Grounded(after.st, chain, ancestor, number) && after.mem == p.mem
  {
    if number <= ancestor {
      assert number in p.st.journal;
    } else if !(number in p.st.journal && p.st.journal[number].hash == chain(number).hash) {
      assert ParentKnown(p.st, number, chain(number)) by {
        assert chain(number).parent == chain(number - 1).hash;
      }
      RecordKeepsChain(p.st, number, chain(number));
    }
  }

  lemma {:induction false} SourcesAreTaken(
      p: Progress, sources: seq<string>, number: nat, hash: Hash, records: (string, nat) -> bool)
    requires Chained(p.st) && !p.aborted && number in p.st.journal && p.st.journal[number].hash == hash
    requires forall s :: s in sources ==> records(s, number) && OnTrack(p, s) && number - 1 <= DurableAt(p.st, s)
    ensures !SourceSteps(p, sources, number, hash, records).aborted
  {
    if sources != [] {
      var front, next := sources[..|sources| - 1], sources[|sources| - 1];
      assert forall s :: s in front ==> s in sources;
      SourcesAreTaken(p, front, number, hash, records);
      assert next in sources;
      SourcesKeepTrack(p, front, number, hash, records, next);
    }
  }

  lemma BlockIsTaken(p: Progress, sources: seq<string>, o: Oracle, chain: nat -> Block, ancestor: nat, number: nat)
    requires Stable(o, chain) && Linked(chain) && !p.aborted && number > p.st.anchor.number
    requires Following(p, sources, chain, ancestor, number - 1) && Grounded(p.st, chain, ancestor, number - 1)
    requires forall s :: s in sources ==> OnTrack(p, s) && number - 1 <= DurableAt(p.st, s)
    requires Readable(o, sources, number)
    ensures var after := BlockStep(p, sources, number, o); !after.aborted && Grounded(after.st, chain, ancestor, number)
  {
    var recorded := RecordStep(p, number, chain(number));
    RecordIsTaken(p, chain, ancestor, number);
    RecordFollows(p, chain, ancestor, number);
    forall s | s in sources
      ensures OnTrack(recorded, s) && number - 1 <= DurableAt(recorded.st, s)
    {
      BlockFollows(p, sources, o, chain, ancestor, number);
      RecordKeepsTrack(p, s, number, chain(number));
    }
    assert number in recorded.st.journal && recorded.st.journal[number].hash == chain(number).hash;
    SourcesAreTaken(recorded, sources, number, chain(number).hash, o.records);
    SourcesKeepJournal(recorded, sources, number, chain(number).hash, o.records);
  }

  lemma TracksAfter(
      p: Progress, sources: seq<string>, o: Oracle, chain: nat -> Block, ancestor: nat, first: nat, last: int, s: string)
    requires Stable(o, chain) && !p.aborted && first > p.st.anchor.number && last >= first - 1
    requires Following(p, sources, chain, ancestor, first - 1)
    requires s in sources && OnTrack(p, s) && first - 1 <= DurableAt(p.st, s)
    requires !BlockSteps(p, sources, first, last, o).aborted
    ensures var after := BlockSteps(p, sources, first, last, o); OnTrack(after, s) && last <= DurableAt(after.st, s)
  {
    BlocksFollow(p, sources, o, chain, ancestor, first, last);
    BlocksKeepTrack(p, sources, s, first, last, o);
  }

  lemma NextIsTaken(
      p: Progress, sources: seq<string>, o: Oracle, chain: nat -> Block, ancestor: nat, first: nat, last: nat)
    requires Stable(o, chain) && Linked(chain) && !p.aborted && p.st.anchor.number < first <= last
    requires Following(p, sources, chain, ancestor, first - 1)
    requires forall s :: s in sources ==> OnTrack(p, s) && first - 1 <= DurableAt(p.st, s)
    requires Readable(o, sources, last)
    requires var before := BlockSteps(p, sources, first, last - 1, o);
             && !before.aborted && Grounded(before.st, chain, ancestor, last - 1)
             && forall s :: s in sources ==> OnTrack(before, s) && last - 1 <= DurableAt(before.st, s)
    ensures var after := BlockSteps(p, sources, first, last, o);
            !after.aborted && Grounded(after.st, chain, ancestor, last)
  {
    BlocksFollow(p, sources, o, chain, ancestor, first, last - 1);
    BlockIsTaken(BlockSteps(p, sources, first, last - 1, o), sources, o, chain, ancestor, last);
  }

  lemma {:induction false} BlocksAreTaken(
      p: Progress, sources: seq<string>, o: Oracle, chain: nat -> Block, ancestor: nat, first: nat, last: int)
    requires Stable(o, chain) && Linked(chain) && !p.aborted && first > p.st.anchor.number && last >= first - 1
    requires Following(p, sources, chain, ancestor, first - 1) && Grounded(p.st, chain, ancestor, first - 1)
    requires forall s :: s in sources ==> OnTrack(p, s) && first - 1 <= DurableAt(p.st, s)
    requires forall h: nat :: first <= h <= last ==> Readable(o, sources, h)
    ensures var after := BlockSteps(p, sources, first, last, o);
            && !after.aborted && Grounded(after.st, chain, ancestor, last)
            && forall s :: s in sources ==> OnTrack(after, s) && last <= DurableAt(after.st, s)
    decreases last
  {
    if first <= last {
      BlocksAreTaken(p, sources, o, chain, ancestor, first, last - 1);
      assert Readable(o, sources, last);
      NextIsTaken(p, sources, o, chain, ancestor, first, last);
      forall s | s in sources
        ensures OnTrack(BlockSteps(p, sources, first, last, o), s) && last <= DurableAt(BlockSteps(p, sources, first, last, o).st, s)
      {
        TracksAfter(p, sources, o, chain, ancestor, first, last, s);
      }
    }
  }

  lemma {:induction false} BlocksAreBounded(
      p: Progress, sources: seq<string>, first: nat, last: int, o: Oracle, source: string)
    requires last >= first - 1
    ensures var after := BlockSteps(p, sources, first, last, o);
            var anchor := p.st.anchor.number;
            after.st.anchor == p.st.anchor
            && Reached(after.mem, anchor, source) <= Later(Reached(p.mem, anchor, source), last)
    decreases last
  {
    if first <= last {
      BlocksAreBounded(p, sources, first, last - 1, o, source);
      var before := BlockSteps(p, sources, first, last - 1, o);
      if !before.aborted && o.blocks(last).Some? {
        var recorded := RecordStep(before, last, o.blocks(last).value);
        if !recorded.aborted {
          MemoryIsBounded(recorded, sources, last, o.blocks(last).value.hash, o.records, source);
        }
      }
    }
  }

  /** The lowest height anyone has to start from: the common ancestor, or a source's cursor below it. */
  ghost predicate Lowest(st: Store, sources: seq<string>, ancestor: nat, m: nat) {
    && m <= ancestor && (forall s :: s in sources ==> m <= DurableAt(st, s))
    && (m == ancestor || exists s :: s in sources && DurableAt(st, s) == m)
  }

  lemma {:induction false} MinimumIsLowest(st: Store, sources: seq<string>, ancestor: nat)
    ensures Lowest(st, sources, ancestor, MinimumCursor(ReadCursors(st), st.anchor.number, sources, ancestor))
  {
    if sources != [] {
      var front, last := sources[..|sources| - 1], sources[|sources| - 1];
      MinimumIsLowest(st, front, ancestor);
      assert forall s :: s in sources <==> s in front || s == last;
      assert Reached(ReadCursors(st), st.anchor.number, last) == DurableAt(st, last);
    }
  }

  lemma LowestIsUnique(st: Store, sources: seq<string>, ancestor: nat, m: nat, n: nat)
    requires Lowest(st, sources, ancestor, m) && Lowest(st, sources, ancestor, n)
    ensures m == n
  {
  }

  lemma FloorIsBelow(st: Store, o: Oracle)
    requires Chained(st) && RunAncestor(st, o).Ok?
    ensures st.floor.number <= RunAncestor(st, o).value
  {
    if st.head.Some? {
      AncestorIsGreatest(st, o.ancestors, st.head.value);
    }
  }

  lemma LoopStarts(st: Store, sources: seq<string>, o: Oracle, chain: nat -> Block, lowest: nat)
    requires Sound(st, sources) && SteadyRun(st, sources, o, chain) && chain(st.anchor.number).hash == st.anchor.hash
    requires RunAncestor(st, o).Ok?
    requires lowest == MinimumCursor(ReadCursors(st), st.anchor.number, sources, RunAncestor(st, o).value)
    ensures var p := Progress(st, ReadCursors(st), false);
            && lowest >= st.anchor.number
            && Following(p, sources, chain, RunAncestor(st, o).value, lowest)
            && Grounded(st, chain, RunAncestor(st, o).value, lowest)
            && forall s :: s in sources ==> OnTrack(p, s) && lowest <= DurableAt(st, s)
  {
    RunStartsFollowing(st, sources, o, chain);
    FloorIsBelow(st, o);
    AncestorAboveAnchor(st, o);
    forall s | s in sources ensures OnTrack(Progress(st, ReadCursors(st), false), s) && lowest <= DurableAt(st, s) {
      StartsOnTrack(st, sources, s);
      EveryoneStartsBelow(st, sources, RunAncestor(st, o).value, s);
    }
  }

  lemma CursorIsBounded(p: Progress, sources: seq<string>, first: nat, last: int, o: Oracle, source: string)
    requires last >= first - 1 && OnTrack(p, source) && OnTrack(BlockSteps(p, sources, first, last, o), source)
    ensures DurableAt(BlockSteps(p, sources, first, last, o).st, source) <= Later(DurableAt(p.st, source), last)
  {
    BlocksAreBounded(p, sources, first, last, o, source);
  }

  /** The same, for the block loop the run starts. */
  lemma LoopCatchesUp(st: Store, sources: seq<string>, o: Oracle, chain: nat -> Block, lowest: nat, target: int)
    requires Sound(st, sources) && SteadyRun(st, sources, o, chain) && chain(st.anchor.number).hash == st.anchor.hash
    requires RunAncestor(st, o).Ok?
    requires lowest == MinimumCursor(ReadCursors(st), st.anchor.number, sources, RunAncestor(st, o).value)
    requires target > lowest && forall h: nat :: lowest < h <= target ==> Readable(o, sources, h)
    ensures var after := BlockSteps(Progress(st, ReadCursors(st), false), sources, lowest + 1, target, o);
            forall s :: s in sources ==> target <= DurableAt(after.st, s) <= Later(DurableAt(st, s), target)
  {
    var p := Progress(st, ReadCursors(st), false);
    LoopStarts(st, sources, o, chain, lowest);
    BlocksAreTaken(p, sources, o, chain, RunAncestor(st, o).value, lowest + 1, target);
    forall s | s in sources
      ensures DurableAt(BlockSteps(p, sources, lowest + 1, target, o).st, s) <= Later(DurableAt(st, s), target)
    {
      CursorIsBounded(p, sources, lowest + 1, target, o, s);
    }
  }

  lemma RunKeepsCursors(st: Store, sources: seq<string>, maxBlocks: nat, o: Oracle, source: string)
    requires o.latest.Some? && RunAncestor(st, o).Ok?
    ensures DurableAt(RunOnce(st, sources, maxBlocks, o), source)
            == DurableAt(RunBlocks(st, sources, maxBlocks, RunAncestor(st, o).value, o.latest.value, o).st, source)
  {
  }

  lemma LowestIsMinimum(st: Store, sources: seq<string>, ancestor: nat, lowest: nat)
    requires Lowest(st, sources, ancestor, lowest)
    ensures lowest == MinimumCursor(ReadCursors(st), st.anchor.number, sources, ancestor)
  {
    MinimumIsLowest(st, sources, ancestor);
    LowestIsUnique(st, sources, ancestor, lowest, MinimumCursor(ReadCursors(st), st.anchor.number, sources, ancestor));
  }

  lemma RunIsTheLoop(st: Store, sources: seq<string>, maxBlocks: nat, o: Oracle, lowest: nat, target: nat)
    requires o.latest.Some? && RunAncestor(st, o).Ok?
    requires lowest == MinimumCursor(ReadCursors(st), st.anchor.number, sources, RunAncestor(st, o).value)
    requires target == if o.latest.value < lowest + maxBlocks then o.latest.value else lowest + maxBlocks
    ensures RunBlocks(st, sources, maxBlocks, RunAncestor(st, o).value, o.latest.value, o)
            == BlockSteps(Progress(st, ReadCursors(st), false), sources, lowest + 1, target, o)
  {
    assert RunLast(st, sources, maxBlocks, RunAncestor(st, o).value, o.latest.value) == target;
  }

  /** A target at or below where the run starts is already behind every source. */
  lemma LoopReaches(st: Store, sources: seq<string>, o: Oracle, chain: nat -> Block, lowest: nat, target: nat)
    requires Sound(st, sources) && SteadyRun(st, sources, o, chain) && chain(st.anchor.number).hash == st.anchor.hash
    requires RunAncestor(st, o).Ok?
    requires lowest == MinimumCursor(ReadCursors(st), st.anchor.number, sources, RunAncestor(st, o).value)
    requires forall h: nat :: lowest < h <= target ==> Readable(o, sources, h)
    ensures var after := BlockSteps(Progress(st, ReadCursors(st), false), sources, lowest + 1, target, o);
            forall s :: s in sources ==> target <= DurableAt(after.st, s) <= Later(DurableAt(st, s), target)
  {
    if target > lowest {
      LoopCatchesUp(st, sources, o, chain, lowest, target);
    } else {
      LoopStarts(st, sources, o, chain, lowest);
    }
  }

  /**
   * On one chain that answers every read, a run takes every source from the
   * lowest cursor up by as many blocks as it may, or to the latest block.
   */
  lemma ReadableRunCatchesUp(
      st: Store, sources: seq<string>, maxBlocks: nat, o: Oracle, chain: nat -> Block, lowest: nat, target: nat)
    requires Sound(st, sources) && SteadyRun(st, sources, o, chain) && chain(st.anchor.number).hash == st.anchor.hash
    requires o.latest.Some? && RunAncestor(st, o).Ok? && Lowest(st, sources, RunAncestor(st, o).value, lowest)
    requires target == if o.latest.value < lowest + maxBlocks then o.latest.value else lowest + maxBlocks
    requires forall h: nat :: lowest < h <= target ==> Readable(o, sources, h)
    ensures forall s :: s in sources ==>
              target <= DurableAt(RunOnce(st, sources, maxBlocks, o), s) <= Later(DurableAt(st, s), target)
  {
    LowestIsMinimum(st, sources, RunAncestor(st, o).value, lowest);
    RunIsTheLoop(st, sources, maxBlocks, o, lowest, target);
    LoopReaches(st, sources, o, chain, lowest, target);
    forall s | s in sources
      ensures target <= DurableAt(RunOnce(st, sources, maxBlocks, o), s) <= Later(DurableAt(st, s), target)
    {
      RunKeepsCursors(st, sources, maxBlocks, o, s);
    }
  }
}
