/**
 * The canonical L1 follower: a journal of agreed blocks, one durable cursor
 * per contract source, and a floor below which nothing is rewritten. Every L1
 * answer is the adversary's, and a failing answer ends a run where it stands.
 */
module Indexer {
  import opened Wrappers

  /** Hashes are compared without regard to case; they stand here in lower case. */
  type Hash = string

  datatype Block = Block(hash: Hash, parent: Hash)

  /** One ingestion of a block's records for a source. */
  datatype Entry = Entry(number: nat, hash: Hash)

  /**
   * The durable state: `journal` holds the canonical blocks by number, `head`
   * the highest of them, and `logs` what each source has ingested that is
   * still canonical, in order of ingestion.
   */
  datatype Store = Store(
    anchor: Entry, floor: Entry, journal: map<nat, Block>, head: Option<nat>,
    cursors: map<string, Entry>, logs: map<string, seq<Entry>>)

  datatype IndexerError = QuorumFailed | Disagreement

  /** Everything one run may be answered. A missing answer is a failed quorum, a lost fence or a crash. */
  datatype Oracle = Oracle(
    latest: Option<nat>,
    ancestors: nat -> Option<Hash>,
    blocks: nat -> Option<Block>,
    records: (string, nat) -> bool,
    observed: bool,
    finalized: Option<Entry>,
    blobsReady: bool,
    floorOpen: bool)

  // ----- The common ancestor

  /** The durable hash at a height at or above the floor. */
  function LocalHash(st: Store, height: nat): Option<Hash> {
    if height == st.floor.number then Some(st.floor.hash)
    else if height in st.journal then Some(st.journal[height].hash)
    else None
  }

  predicate AgreesAt(st: Store, remote: nat -> Option<Hash>, height: nat) {
    LocalHash(st, height).Some? && remote(height) == LocalHash(st, height)
  }

  function AncestorFrom(st: Store, remote: nat -> Option<Hash>, height: int): Result<nat, IndexerError> {
    if height < st.floor.number then Err(Disagreement)
    else if remote(height).None? then Err(QuorumFailed)
    else if AgreesAt(st, remote, height) then Ok(height)
    else AncestorFrom(st, remote, height - 1)
  }

  method CommonAncestor(st: Store, remote: nat -> Option<Hash>, indexed: nat) returns (r: Result<nat, IndexerError>)
    ensures r == AncestorFrom(st, remote, indexed)
  {
    var cursor: int := indexed;
    while cursor >= st.floor.number
      invariant cursor <= indexed
      invariant AncestorFrom(st, remote, indexed) == AncestorFrom(st, remote, cursor)
    {
      var answer := remote(cursor);
      if answer.None? {
        return Err(QuorumFailed);
      }
      var local := LocalHash(st, cursor);
      if local.Some? && local == answer {
        return Ok(cursor);
      }
      cursor := cursor - 1;
    }
    return Err(Disagreement);
  }

  /** The search ends at the greatest agreeing height at or above the floor, or there is none. */
  lemma {:induction false} AncestorIsGreatest(st: Store, remote: nat -> Option<Hash>, indexed: int)
    ensures var r := AncestorFrom(st, remote, indexed);
            && (r.Ok? ==> st.floor.number <= r.value <= indexed && AgreesAt(st, remote, r.value)
                          && forall h: nat :: r.value < h <= indexed ==> remote(h).Some? && !AgreesAt(st, remote, h))
            && (r == Err(Disagreement) <==>
                  forall h: nat :: st.floor.number <= h <= indexed ==> remote(h).Some? && !AgreesAt(st, remote, h))
  {
    if indexed >= st.floor.number && remote(indexed).Some? && !AgreesAt(st, remote, indexed) {
      AncestorIsGreatest(st, remote, indexed - 1);
      if AncestorFrom(st, remote, indexed) == Err(Disagreement) {
        forall h: nat | st.floor.number <= h <= indexed ensures remote(h).Some? && !AgreesAt(st, remote, h) {
          assert h <= indexed - 1 || h == indexed;
        }
      }
    }
  }

  // ----- The journal

  /** Whether the journal may take this block: its parent is the canonical block, or the floor, just below it. */
  predicate ParentKnown(st: Store, number: nat, block: Block) {
    && st.floor.number < number
    && if number - 1 in st.journal then st.journal[number - 1].hash == block.parent
       else st.floor == Entry(number - 1, block.parent)
  }

  predicate Replaces(st: Store, number: nat, block: Block) {
    if number in st.journal then st.journal[number].hash != block.hash
    else exists k :: k in st.journal && k > number
  }

  function Before(log: seq<Entry>, number: nat): seq<Entry> {
    if log == [] then []
    else
      var front, last := Before(log[..|log| - 1], number), log[|log| - 1];
      if last.number < number then front + [last] else front
  }

  /**
   * Record one agreed block. Where it replaces another, everything from its
   * height up is retracted and every durable cursor is set just below it.
   */
  function Record(st: Store, number: nat, block: Block): Option<Store> {
    if !ParentKnown(st, number, block) then None
    else if !Replaces(st, number, block) then
      Some(st.(journal := st.journal[number := block], head := Some(number)))
    else
      var parent := Entry(number - 1, block.parent);
      Some(st.(
        journal := (map k | k in st.journal && k < number :: st.journal[k])[number := block],
        head := Some(number),
        cursors := map s | s in st.cursors :: parent,
        logs := map s | s in st.logs :: Before(st.logs[s], number)))
  }

  function Logged(st: Store, source: string): seq<Entry> {
    if source in st.logs then st.logs[source] else []
  }

  /** Records and cursor in one transaction; the cursor only moves up and the block must be canonical. */
  function Ingest(st: Store, source: string, number: nat, hash: Hash): Option<Store> {
    if number !in st.journal || st.journal[number].hash != hash then None
    else if source in st.cursors && number < st.cursors[source].number then None
    else if source in st.cursors && number == st.cursors[source].number && hash != st.cursors[source].hash then None
    else
      Some(st.(cursors := st.cursors[source := Entry(number, hash)],
               logs := st.logs[source := Logged(st, source) + [Entry(number, hash)]]))
  }

  // ----- A run

  /** The run's own view of the cursors, read once and then kept in memory. */
  datatype Progress = Progress(st: Store, mem: map<string, nat>, aborted: bool)

  function Reached(mem: map<string, nat>, anchor: nat, source: string): nat {
    if source in mem then mem[source] else anchor
  }

  function SourceStep(p: Progress, source: string, number: nat, hash: Hash, ok: bool): Progress {
    if Reached(p.mem, p.st.anchor.number, source) >= number then p
    else if !ok then p.(aborted := true)
    else
      var ingested := Ingest(p.st, source, number, hash);
      if ingested.None? then p.(aborted := true)
      else p.(st := ingested.value, mem := p.mem[source := number])
  }

  function SourceSteps(p: Progress, sources: seq<string>, number: nat, hash: Hash, records: (string, nat) -> bool): Progress {
    if sources == [] then p
    else
      var before := SourceSteps(p, sources[..|sources| - 1], number, hash, records);
      if before.aborted then before
      else
        var source := sources[|sources| - 1];
        SourceStep(before, source, number, hash, records(source, number))
  }

  function RecordStep(p: Progress, number: nat, block: Block): Progress {
    if number in p.st.journal && p.st.journal[number].hash == block.hash then p
    else
      var recorded := Record(p.st, number, block);
      if recorded.None? then p.(aborted := true) else p.(st := recorded.value)
  }

  function BlockStep(p: Progress, sources: seq<string>, number: nat, o: Oracle): Progress {
    var block := o.blocks(number);
    if block.None? then p.(aborted := true)
    else
      var recorded := RecordStep(p, number, block.value);
      if recorded.aborted then recorded else SourceSteps(recorded, sources, number, block.value.hash, o.records)
  }

  /** The blocks from `first` up to `last`, in ascending order, until one fails. */
  function BlockSteps(p: Progress, sources: seq<string>, first: nat, last: int, o: Oracle): Progress
    decreases last
  {
    if last < first then p
    else
      var before := BlockSteps(p, sources, first, last - 1, o);
      if before.aborted then before else BlockStep(before, sources, last, o)
  }

  function MinimumCursor(mem: map<string, nat>, anchor: nat, sources: seq<string>, ancestor: nat): (m: nat)
    ensures m <= ancestor
    ensures forall i :: 0 <= i < |sources| ==> m <= Reached(mem, anchor, sources[i])
  {
    if sources == [] then ancestor
    else
      var front := MinimumCursor(mem, anchor, sources[..|sources| - 1], ancestor);
      var last := Reached(mem, anchor, sources[|sources| - 1]);
      assert forall i :: 0 <= i < |sources| - 1 ==> sources[i] == sources[..|sources| - 1][i];
      if last < front then last else front
  }

  predicate EveryoneReached(mem: map<string, nat>, anchor: nat, sources: seq<string>, number: nat) {
    forall i :: 0 <= i < |sources| ==> Reached(mem, anchor, sources[i]) >= number
  }

  /** The floor moves only up, onto a canonical block, and never to a second hash at its height. */
  function AdvanceFloor(st: Store, finalized: Entry): Option<Store> {
    if finalized.number < st.anchor.number then None
    else if !(finalized.number in st.journal && st.journal[finalized.number].hash == finalized.hash)
            && finalized != st.anchor then None
    else if finalized.number < st.floor.number then None
    else if finalized.number == st.floor.number && finalized.hash != st.floor.hash then None
    else Some(st.(floor := finalized))
  }

  function FloorStep(p: Progress, sources: seq<string>, o: Oracle): Store {
    if o.finalized.None? then p.st
    else
      var f := o.finalized.value;
      if !EveryoneReached(p.mem, p.st.anchor.number, sources, f.number) then p.st
      else if !(f.number in p.st.journal && p.st.journal[f.number].hash == f.hash) then p.st
      else if !o.blobsReady || !o.floorOpen then p.st
      else
        var advanced := AdvanceFloor(p.st, f);
        if advanced.None? then p.st else advanced.value
  }

  function ReadCursors(st: Store): map<string, nat> {
    map s | s in st.cursors :: st.cursors[s].number
  }

  /** Where the run starts looking: the ancestor of the journal's head, or the anchor of an empty journal. */
  function RunAncestor(st: Store, o: Oracle): Result<nat, IndexerError> {
    if st.head.Some? then AncestorFrom(st, o.ancestors, st.head.value) else Ok(st.anchor.number)
  }

  function RunLast(st: Store, sources: seq<string>, maxBlocks: nat, ancestor: nat, latest: nat): int {
    var start := MinimumCursor(ReadCursors(st), st.anchor.number, sources, ancestor) + 1;
    if latest < start + maxBlocks - 1 then latest else start + maxBlocks - 1
  }

  function RunBlocks(st: Store, sources: seq<string>, maxBlocks: nat, ancestor: nat, latest: nat, o: Oracle): Progress {
    var mem := ReadCursors(st);
    var start := MinimumCursor(mem, st.anchor.number, sources, ancestor) + 1;
    BlockSteps(Progress(st, mem, false), sources, start, RunLast(st, sources, maxBlocks, ancestor, latest), o)
  }

  /** A run that failed, or whose observation pass failed, leaves the floor alone. */
  function RunEnd(p: Progress, sources: seq<string>, o: Oracle): Store {
    if p.aborted || !o.observed then p.st else FloorStep(p, sources, o)
  }

  /** What one run leaves in the store, however it ends. */
  function RunOnce(st: Store, sources: seq<string>, maxBlocks: nat, o: Oracle): Store {
    if o.latest.None? || RunAncestor(st, o).Err? then st
    else RunEnd(RunBlocks(st, sources, maxBlocks, RunAncestor(st, o).value, o.latest.value, o), sources, o)
  }

  function Runs(st: Store, sources: seq<string>, maxBlocks: nat, oracles: seq<Oracle>): Store {
    if oracles == [] then st
    else RunOnce(Runs(st, sources, maxBlocks, oracles[..|oracles| - 1]), sources, maxBlocks, oracles[|oracles| - 1])
  }

  /** The follower over its durable store. */
  class HostedIndexer {
    var st: Store
    const sources: seq<string>
    const maxBlocks: nat

    constructor (st: Store, sources: seq<string>, maxBlocks: nat)
      ensures this.st == st && this.sources == sources && this.maxBlocks == maxBlocks
    {
      this.st, this.sources, this.maxBlocks := st, sources, maxBlocks;
    }

    /** One journal write and the source loop for one agreed block. */
    method FollowBlock(p: Progress, number: nat, o: Oracle) returns (after: Progress)
      requires !p.aborted
      ensures after == BlockStep(p, sources, number, o)
    {
      after := p;
      var block := o.blocks(number);
      if block.None? {
        return after.(aborted := true);
      }
      if !(number in after.st.journal && after.st.journal[number].hash == block.value.hash) {
        var recorded := Record(after.st, number, block.value);
        if recorded.None? {
          return after.(aborted := true);
        }
        after := after.(st := recorded.value);
      }
      ghost var base := after;
      var i := 0;
      while i < |sources|
        invariant 0 <= i <= |sources|
        invariant after == SourceSteps(base, sources[..i], number, block.value.hash, o.records) && !after.aborted
      {
        assert sources[..i + 1][..i] == sources[..i];
        var source := sources[i];
        i := i + 1;
        if Reached(after.mem, after.st.anchor.number, source) >= number {
          continue;
        }
        var ingested := if o.records(source, number) then Ingest(after.st, source, number, block.value.hash) else None;
        if ingested.None? {
          after := after.(aborted := true);
          SourcesAbort(base, sources, i, number, block.value.hash, o.records);
          return;
        }
        after := after.(st := ingested.value, mem := after.mem[source := number]);
      }
      assert sources[..i] == sources;
    }

    /** The block loop, left at the first failure. */
    method FollowBlocks(p: Progress, start: nat, end: int, o: Oracle) returns (after: Progress)
      requires !p.aborted
      ensures after == BlockSteps(p, sources, start, end, o)
    {
      after := p;
      if end < start {
        return;
      }
      var number: nat := start;
      while number <= end && !after.aborted
        invariant start <= number <= end + 1
        invariant after == BlockSteps(p, sources, start, number - 1, o)
        decreases end - number
      {
        BlockStepsNext(p, sources, start, number, o);
        after := FollowBlock(after, number, o);
        number := number + 1;
      }
      if after.aborted {
        BlocksAbort(p, sources, start, number - 1, end, o);
      }
    }

    method FollowRun(ancestor: nat, latest: nat, o: Oracle) returns (p: Progress)
      ensures p == RunBlocks(st, sources, maxBlocks, ancestor, latest, o)
    {
      var mem := ReadCursors(st);
      var start := MinimumCursor(mem, st.anchor.number, sources, ancestor) + 1;
      var end := RunLast(st, sources, maxBlocks, ancestor, latest);
      p := FollowBlocks(Progress(st, mem, false), start, end, o);
    }

    method Once(o: Oracle)
      modifies this
      ensures st == RunOnce(old(st), sources, maxBlocks, o)
    {
      if o.latest.None? {
        return;
      }
      var ancestor := Ok(st.anchor.number);
      if st.head.Some? {
        ancestor := CommonAncestor(st, o.ancestors, st.head.value);
      }
      if ancestor.Err? {
        return;
      }
      var p := FollowRun(ancestor.value, o.latest.value, o);
      st := RunEnd(p, sources, o);
    }
  }

  lemma BlockStepsNext(p: Progress, sources: seq<string>, first: nat, last: nat, o: Oracle)
    requires first <= last
    ensures var before := BlockSteps(p, sources, first, last - 1, o);
            BlockSteps(p, sources, first, last, o) == if before.aborted then before else BlockStep(before, sources, last, o)
  {
  }

  lemma {:induction false} SourcesAbort(
      p: Progress, sources: seq<string>, i: nat, number: nat, hash: Hash, records: (string, nat) -> bool)
    requires i <= |sources| && SourceSteps(p, sources[..i], number, hash, records).aborted
    ensures SourceSteps(p, sources, number, hash, records) == SourceSteps(p, sources[..i], number, hash, records)
  {
    if i < |sources| {
      assert sources[..|sources| - 1][..i] == sources[..i];
      SourcesAbort(p, sources[..|sources| - 1], i, number, hash, records);
    } else {
      assert sources[..i] == sources;
    }
  }

  lemma {:induction false} BlocksAbort(p: Progress, sources: seq<string>, first: nat, at: int, last: int, o: Oracle)
    requires at <= last && BlockSteps(p, sources, first, at, o).aborted
    ensures BlockSteps(p, sources, first, last, o) == BlockSteps(p, sources, first, at, o)
    decreases last - at
  {
    if at < last {
      BlocksAbort(p, sources, first, at, last - 1, o);
    }
  }
}
