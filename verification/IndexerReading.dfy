/** What a source's log may hold: only blocks whose records were read, and nothing past one that could not be. */
module IndexerReading {
  import opened Wrappers
  import opened Indexer
  import opened IndexerCoverage

  /** This run's L1 gave this block at this height, and the source's records in it could be read. */
  predicate ReadBy(o: Oracle, source: string, e: Entry) {
    o.records(source, e.number) && o.blocks(e.number).Some? && o.blocks(e.number).value.hash == e.hash
  }

  /** Whatever the source has now and had not before was read. */
  predicate GainedByReading(before: Store, after: Store, source: string, o: Oracle) {
    forall e :: e in Logged(after, source) ==> e in Logged(before, source) || ReadBy(o, source, e)
  }

  lemma {:induction false} BeforeKeepsOld(log: seq<Entry>, number: nat)
    ensures forall e :: e in Before(log, number) ==> e in log
  {
    if log != [] {
      BeforeKeepsOld(log[..|log| - 1], number);
    }
  }

  lemma RecordGainsNothing(p: Progress, source: string, number: nat, block: Block)
    ensures forall e :: e in Logged(RecordStep(p, number, block).st, source) ==> e in Logged(p.st, source)
  {
    BeforeKeepsOld(Logged(p.st, source), number);
  }

  lemma OneSourceGains(p: Progress, next: string, source: string, number: nat, hash: Hash, ok: bool)
    ensures var after := SourceStep(p, next, number, hash, ok);
            forall e :: e in Logged(after.st, source) ==>
              e in Logged(p.st, source) || (next == source && ok && e == Entry(number, hash))
  {
  }

  lemma {:induction false} SourcesGainByReading(
      p: Progress, sources: seq<string>, source: string, number: nat, hash: Hash, records: (string, nat) -> bool)
    ensures var after := SourceSteps(p, sources, number, hash, records);
            forall e :: e in Logged(after.st, source) ==>
              e in Logged(p.st, source) || (records(source, number) && e == Entry(number, hash))
  {
    if sources != [] {
      var front, next := sources[..|sources| - 1], sources[|sources| - 1];
      SourcesGainByReading(p, front, source, number, hash, records);
      OneSourceGains(SourceSteps(p, front, number, hash, records), next, source, number, hash, records(next, number));
    }
  }

  lemma BlockGainsByReading(p: Progress, sources: seq<string>, source: string, number: nat, o: Oracle)
    ensures GainedByReading(p.st, BlockStep(p, sources, number, o).st, source, o)
  {
    if o.blocks(number).Some? {
      var block := o.blocks(number).value;
      RecordGainsNothing(p, source, number, block);
      SourcesGainByReading(RecordStep(p, number, block), sources, source, number, block.hash, o.records);
    }
  }

  lemma {:induction false} BlocksGainByReading(p: Progress, sources: seq<string>, source: string, first: nat, last: int, o: Oracle)
    ensures GainedByReading(p.st, BlockSteps(p, sources, first, last, o).st, source, o)
    decreases last
  {
    if first <= last {
      BlocksGainByReading(p, sources, source, first, last - 1, o);
      BlockGainsByReading(BlockSteps(p, sources, first, last - 1, o), sources, source, last, o);
    }
  }

  /** One run adds to a source's log only blocks this run was given and whose records it read. */
  lemma RunGainsByReading(st: Store, sources: seq<string>, maxBlocks: nat, o: Oracle, source: string)
    ensures GainedByReading(st, RunOnce(st, sources, maxBlocks, o), source, o)
  {
    if o.latest.Some? && RunAncestor(st, o).Ok? {
      var ancestor := RunAncestor(st, o).value;
      var start := MinimumCursor(ReadCursors(st), st.anchor.number, sources, ancestor) + 1;
      BlocksGainByReading(Progress(st, ReadCursors(st), false), sources, source, start,
                          RunLast(st, sources, maxBlocks, ancestor, o.latest.value), o);
    }
  }

  /** Over any runs, every block in a source's log was there at the start or was read in one of them. */
  lemma {:induction false} LogsHoldWhatWasRead(
      st: Store, sources: seq<string>, maxBlocks: nat, oracles: seq<Oracle>, source: string, e: Entry)
    requires e in Logged(Runs(st, sources, maxBlocks, oracles), source)
    ensures e in Logged(st, source) || exists k :: 0 <= k < |oracles| && ReadBy(oracles[k], source, e)
  {
    if oracles != [] {
      var front := oracles[..|oracles| - 1];
      RunGainsByReading(Runs(st, sources, maxBlocks, front), sources, maxBlocks, oracles[|oracles| - 1], source);
      if !ReadBy(oracles[|oracles| - 1], source, e) {
        LogsHoldWhatWasRead(st, sources, maxBlocks, front, source, e);
        if k :| 0 <= k < |front| && ReadBy(front[k], source, e) {
          assert oracles[k] == front[k];
        }
      }
    }
  }

  // ----- A block that cannot be read

  /** Neither the store nor the loop has this source at `height` yet. */
  predicate Short(p: Progress, source: string, height: nat) {
    DurableAt(p.st, source) < height && Reached(p.mem, p.st.anchor.number, source) < height && p.st.anchor.number < height
  }

  /** Above `height` the journal holds nothing it did not hold before. */
  ghost predicate NothingNewAbove(before: Store, after: Store, height: nat) {
    forall k :: k in after.journal && k > height ==> k in before.journal && after.journal[k] == before.journal[k]
  }

  lemma RecordStaysShort(p: Progress, source: string, number: nat, block: Block, height: nat)
    requires Short(p, source, height) && 0 < number <= height
    ensures var after := RecordStep(p, number, block);
            && Short(after, source, height) && after.st.anchor == p.st.anchor && NothingNewAbove(p.st, after.st, height)
  {
  }

  lemma OneSourceStaysShort(p: Progress, next: string, source: string, number: nat, hash: Hash, ok: bool, height: nat)
    requires Short(p, source, height) && number <= height && (number == height && next == source ==> !ok)
    ensures var after := SourceStep(p, next, number, hash, ok);
            && Short(after, source, height) && after.st.anchor == p.st.anchor && after.st.journal == p.st.journal
            && (number == height && next == source ==> after.aborted)
            && (p.aborted ==> after.aborted)
  {
  }

  lemma {:induction false} SourcesStayShort(
      p: Progress, sources: seq<string>, source: string, number: nat, hash: Hash, records: (string, nat) -> bool, height: nat)
    requires Short(p, source, height) && number <= height && !records(source, height)
    ensures var after := SourceSteps(p, sources, number, hash, records);
            && Short(after, source, height) && after.st.anchor == p.st.anchor && after.st.journal == p.st.journal
            && (number == height && source in sources ==> after.aborted)
  {
    if sources != [] {
      var front, next := sources[..|sources| - 1], sources[|sources| - 1];
      SourcesStayShort(p, front, source, number, hash, records, height);
      assert source in sources <==> source in front || source == next;
      OneSourceStaysShort(SourceSteps(p, front, number, hash, records), next, source, number, hash, records(next, number), height);
    }
  }

  lemma BlockStaysShort(p: Progress, sources: seq<string>, source: string, number: nat, o: Oracle, height: nat)
    requires Short(p, source, height) && 0 < number <= height && !o.records(source, height) && source in sources
    ensures var after := BlockStep(p, sources, number, o);
            && Short(after, source, height) && after.st.anchor == p.st.anchor && NothingNewAbove(p.st, after.st, height)
            && (number == height ==> after.aborted)
  {
    if o.blocks(number).Some? {
      var block := o.blocks(number).value;
      RecordStaysShort(p, source, number, block, height);
      SourcesStayShort(RecordStep(p, number, block), sources, source, number, block.hash, o.records, height);
    }
  }

  lemma StillNothingNew(a: Store, b: Store, c: Store, height: nat)
    requires NothingNewAbove(a, b, height) && NothingNewAbove(b, c, height)
    ensures NothingNewAbove(a, c, height)
  {
  }

  lemma {:induction false} BlocksStopAtUnread(
      p: Progress, sources: seq<string>, source: string, first: nat, last: int, o: Oracle, height: nat)
    requires Short(p, source, height) && 0 < first <= height && !o.records(source, height) && source in sources
    ensures var after := BlockSteps(p, sources, first, last, o);
            && Short(after, source, height) && NothingNewAbove(p.st, after.st, height)
            && (last >= height ==> after.aborted)
    decreases last
  {
    if first <= last {
      BlocksStopAtUnread(p, sources, source, first, last - 1, o, height);
      var before := BlockSteps(p, sources, first, last - 1, o);
      if !before.aborted {
        BlockStaysShort(before, sources, source, last, o, height);
        StillNothingNew(p.st, before.st, BlockStep(before, sources, last, o).st, height);
      }
    }
  }

  /**
   * Where a source's records at a height it has not reached cannot be read, the
   * run leaves its cursor below that height and records no later block.
   */
  lemma UnreadBlockStopsTheRun(st: Store, sources: seq<string>, maxBlocks: nat, o: Oracle, source: string, height: nat)
    requires source in sources && st.anchor.number < height && DurableAt(st, source) < height && !o.records(source, height)
    ensures var after := RunOnce(st, sources, maxBlocks, o);
            DurableAt(after, source) < height && NothingNewAbove(st, after, height)
  {
    if o.latest.Some? && RunAncestor(st, o).Ok? {
      var ancestor, mem := RunAncestor(st, o).value, ReadCursors(st);
      var start := MinimumCursor(mem, st.anchor.number, sources, ancestor) + 1;
      var i :| 0 <= i < |sources| && sources[i] == source;
      assert Reached(mem, st.anchor.number, sources[i]) == DurableAt(st, source);
      BlocksStopAtUnread(Progress(st, mem, false), sources, source, start,
                         RunLast(st, sources, maxBlocks, ancestor, o.latest.value), o, height);
    }
  }
}
