/** An indexer run that leaves a hole: what a cursor above the common ancestor costs. */
module IndexerExamples {
  import opened Wrappers
  import opened Indexer
  import opened IndexerCoverage

  const GENESIS := Entry(0, "g")

  /** A source two blocks in. */
  function TwoBlocksIn(): Store {
    Store(GENESIS, GENESIS, map[1 := Block("a1", "g"), 2 := Block("a2", "a1")], Some(2),
          map["x" := Entry(2, "a2")], map["x" := [Entry(1, "a1"), Entry(2, "a2")]])
  }

  function NewBranch(height: nat): Block {
    if height == 0 then Block("g", "") else if height == 1 then Block("b1", "g")
    else if height == 2 then Block("b2", "b1") else Block("b3", "b2")
  }

  /** L1 has moved to another branch, one block longer. */
  function Reorganised(): Oracle {
    Oracle(Some(3), (h: nat) => Some(NewBranch(h).hash), (h: nat) => Some(NewBranch(h)), (s, n) => true, false, None, false, false)
  }

  /** After `n` blocks of the new branch: nothing is ingested until the cursor in memory is passed. */
  function OnBranch(n: nat): Progress
    requires n <= 3
  {
    if n == 0 then Progress(TwoBlocksIn(), map["x" := 2], false)
    else
      var journal := map k: nat | 1 <= k <= n :: NewBranch(k);
      if n < 3 then
        Progress(Store(GENESIS, GENESIS, journal, Some(n), map["x" := GENESIS], map["x" := []]), map["x" := 2], false)
      else
        Progress(Store(GENESIS, GENESIS, journal, Some(n), map["x" := Entry(3, "b3")], map["x" := [Entry(3, "b3")]]),
                 map["x" := 3], false)
  }

  lemma OneSource(p: Progress, number: nat, hash: Hash)
    requires !p.aborted
    ensures SourceSteps(p, ["x"], number, hash, Reorganised().records) == SourceStep(p, "x", number, hash, true)
  {
    assert SourceSteps(p, [], number, hash, Reorganised().records) == p;
    assert ["x"][..0] == [];
  }

  /** The journal of the new branch with its block just recorded, before any source has looked at it. */
  function Recorded(n: nat): Store
    requires 1 <= n <= 3
  {
    if n < 3 then OnBranch(n).st else OnBranch(2).st.(journal := OnBranch(3).st.journal, head := Some(3))
  }

  lemma FirstReplaces()
    ensures Record(TwoBlocksIn(), 1, NewBranch(1)) == Some(Recorded(1))
  {
    var st := TwoBlocksIn();
    assert st.logs["x"][..1] == [Entry(1, "a1")] && [Entry(1, "a1")][..0] == [];
    assert Before([Entry(1, "a1")], 1) == [];
    assert Before(st.logs["x"], 1) == [];
    var parent := Entry(0, "g");
    assert (map s | s in st.cursors :: parent) == map["x" := GENESIS];
    assert (map s | s in st.logs :: Before(st.logs[s], 1)) == map["x" := []];
    assert Record(st, 1, NewBranch(1)).Some?;
    assert Record(st, 1, NewBranch(1)).value.journal == Recorded(1).journal;
  }

  lemma NextExtends(n: nat)
    requires 2 <= n <= 3
    ensures Record(OnBranch(n - 1).st, n, NewBranch(n)) == Some(Recorded(n))
  {
    var st := OnBranch(n - 1).st;
    assert forall k :: k in st.journal ==> k < n;
    assert st.journal[n := NewBranch(n)] == Recorded(n).journal;
  }

  lemma FollowsBranch(n: nat)
    requires 1 <= n <= 3
    ensures BlockStep(OnBranch(n - 1), ["x"], n, Reorganised()) == OnBranch(n)
  {
    if n == 1 {
      FirstReplaces();
    } else {
      NextExtends(n);
    }
    var recorded := OnBranch(n - 1).(st := Recorded(n));
    assert RecordStep(OnBranch(n - 1), n, NewBranch(n)) == recorded;
    OneSource(recorded, n, NewBranch(n).hash);
    if n == 3 {
      assert [] + [Entry(3, "b3")] == [Entry(3, "b3")];
      assert map["x" := GENESIS]["x" := Entry(3, "b3")] == map["x" := Entry(3, "b3")];
      assert map["x" := 2]["x" := 3] == map["x" := 3];
    }
  }

  lemma {:induction false} FollowsTo(n: nat)
    requires n <= 3
    ensures BlockSteps(OnBranch(0), ["x"], 1, n, Reorganised()) == OnBranch(n)
  {
    if n > 0 {
      FollowsTo(n - 1);
      FollowsBranch(n);
    }
  }

  lemma BranchIsFoundAtGenesis()
    ensures RunAncestor(TwoBlocksIn(), Reorganised()) == Ok(0)
    ensures ReadCursors(TwoBlocksIn()) == map["x" := 2] && MinimumCursor(map["x" := 2], 0, ["x"], 0) == 0
  {
    var st, o := TwoBlocksIn(), Reorganised();
    assert AncestorFrom(st, o.ancestors, 0) == Ok(0);
    assert AncestorFrom(st, o.ancestors, 1) == Ok(0);
    assert ["x"][..0] == [];
  }

  lemma TwoBlocksInIsSound()
    ensures Sound(TwoBlocksIn(), ["x"])
  {
    var journal := TwoBlocksIn().journal;
    assert Canon(journal, 0, 0) == [];
    assert Canon(journal, 0, 1) == [Entry(1, "a1")];
    assert Canon(journal, 0, 2) == [Entry(1, "a1"), Entry(2, "a2")];
  }

  lemma RunEndsOnBranch()
    ensures RunOnce(TwoBlocksIn(), ["x"], 3, Reorganised()) == OnBranch(3).st
  {
    BranchIsFoundAtGenesis();
    FollowsTo(3);
  }

  /**
   * The branch was replaced between two runs, and the next one read a cursor
   * above the common ancestor: it ends with the first two blocks of the new
   * branch never ingested and the durable cursor past them.
   */
  lemma ReplacedBranchLeavesHole()
    ensures Sound(TwoBlocksIn(), ["x"])
    ensures RunAncestor(TwoBlocksIn(), Reorganised()) == Ok(0) && DurableAt(TwoBlocksIn(), "x") == 2
    ensures var after := RunOnce(TwoBlocksIn(), ["x"], 3, Reorganised());
            DurableAt(after, "x") == 3 && Logged(after, "x") == [Entry(3, "b3")] && !Covered(after, "x")
  {
    TwoBlocksInIsSound();
    BranchIsFoundAtGenesis();
    RunEndsOnBranch();
    assert |Canon(OnBranch(3).st.journal, 0, 3)| == 3;
  }
}
