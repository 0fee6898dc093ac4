/**
 * The approver set's hash tree: leaves padded to a power of two, levels built
 * by halving, and one inclusion proof per member. Hashing is any function.
 */
module ApproverTree {

  function Pow2(k: nat): (p: nat)
    ensures p >= 1
  {
    if k == 0 then 1 else 2 * Pow2(k - 1)
  }

  function CapacityFrom(k: nat, count: nat): (height: nat)
    ensures Pow2(height) >= count && height >= k
    ensures forall j: nat :: k <= j < height ==> Pow2(j) < count
    decreases count - Pow2(k)
  {
    if Pow2(k) >= count then k else CapacityFrom(k + 1, count)
  }

  /** The base-two logarithm of the padded capacity, which is never below one. */
  function Height(count: nat): nat {
    CapacityFrom(1, if count < 2 then 2 else count)
  }

  function Leaves<T>(count: nat, leaf: nat -> T, zero: T): (s: seq<T>)
    ensures |s| == Pow2(Height(count)) >= count
    ensures forall i :: 0 <= i < count ==> s[i] == leaf(i)
  {
    seq(Pow2(Height(count)), i requires i >= 0 => if i < count then leaf(i) else zero)
  }

  /** The members' leaves come first, and zero leaves pad them to the least power of two from two up that holds them. */
  lemma PaddingIsLeast<T>(count: nat, leaf: nat -> T, zero: T)
    ensures var leaves := Leaves(count, leaf, zero);
            && (exists k: nat :: |leaves| == Pow2(k)) && |leaves| >= 2 && |leaves| >= count
            && (forall k: nat :: Pow2(k) >= 2 && Pow2(k) >= count ==> Pow2(k) >= |leaves|)
            && forall i :: 0 <= i < |leaves| ==> leaves[i] == if i < count then leaf(i) else zero
  {
    var height := Height(count);
    forall k: nat | Pow2(k) >= 2 && Pow2(k) >= count ensures Pow2(k) >= Pow2(height) {
      if k >= height {
        PowersGrow(height, k);
      }
    }
    assert Pow2(1) == 2;
    PowersGrow(1, height);
  }

  lemma {:induction false} PowersGrow(low: nat, high: nat)
    requires low <= high
    ensures Pow2(low) <= Pow2(high)
  {
    if low < high {
      PowersGrow(low, high - 1);
    }
  }

  function Halve<T>(level: seq<T>, combine: (T, T) -> T): (next: seq<T>)
    ensures |next| == |level| / 2
  {
    seq(|level| / 2, i requires 0 <= i < |level| / 2 => combine(level[2 * i], level[2 * i + 1]))
  }

  function Levels<T>(level: seq<T>, combine: (T, T) -> T): (levels: seq<seq<T>>)
    ensures levels != [] && levels[0] == level && |levels[|levels| - 1]| <= 1
    decreases |level|
  {
    if |level| <= 1 then [level] else [level] + Levels(Halve(level, combine), combine)
  }

  /** The index beside this one: its last bit flipped. */
  function Sibling(index: nat): nat {
    if index % 2 == 0 then index + 1 else index - 1
  }

  /** The siblings met on the way up, out of every level but the top. */
  function ProofOf<T>(levels: seq<seq<T>>, index: nat): seq<T> {
    if |levels| <= 1 || Sibling(index) >= |levels[0]| then []
    else [levels[0][Sibling(index)]] + ProofOf(levels[1..], index / 2)
  }

  /** What a verifier computes: the index's bits choose the side of each sibling. */
  function Fold<T>(node: T, index: nat, proof: seq<T>, combine: (T, T) -> T): T
    decreases |proof|
  {
    if proof == [] then node
    else Fold(if index % 2 == 0 then combine(node, proof[0]) else combine(proof[0], node), index / 2, proof[1..], combine)
  }

  /** The root by halves, as a tree is usually defined. */
  function Root<T>(leaves: seq<T>, combine: (T, T) -> T): T
    requires leaves != []
    decreases |leaves|
  {
    if |leaves| == 1 then leaves[0]
    else combine(Root(leaves[..|leaves| / 2], combine), Root(leaves[|leaves| / 2..], combine))
  }

  lemma LevelsUnfold<T>(below: seq<seq<T>>, level: seq<T>, combine: (T, T) -> T)
    requires |level| > 1
    ensures below + Levels(level, combine) == below + [level] + Levels(Halve(level, combine), combine)
  {
  }

  /** Halve the last level until a single node is left. */
  method BuildLevels<T>(leaves: seq<T>, combine: (T, T) -> T) returns (levels: seq<seq<T>>)
    ensures levels == Levels(leaves, combine)
  {
    var level := leaves;
    ghost var below: seq<seq<T>> := [];
    levels := [level];
    while |level| > 1
      invariant levels == below + [level]
      invariant below + Levels(level, combine) == Levels(leaves, combine)
      decreases |level|
    {
      LevelsUnfold(below, level, combine);
      below := levels;
      level := Halve(level, combine);
      levels := levels + [level];
    }
  }

  method BuildProofs<T>(levels: seq<seq<T>>, count: nat, height: nat) returns (proofs: seq<seq<T>>)
    requires Shaped(levels, height) && count <= Pow2(height)
    ensures |proofs| == count && forall m :: 0 <= m < count ==> proofs[m] == ProofOf(levels, m)
  {
    proofs := [];
    for member := 0 to count
      invariant |proofs| == member && forall m :: 0 <= m < member ==> proofs[m] == ProofOf(levels, m)
    {
      var proof := Climb(levels, member, height);
      proofs := proofs + [proof];
    }
  }

  /** The levels and every member's proof, built level by level, then climbed member by member. */
  method Build<T>(count: nat, leaf: nat -> T, zero: T, combine: (T, T) -> T)
    returns (levels: seq<seq<T>>, proofs: seq<seq<T>>)
    ensures levels == Levels(Leaves(count, leaf, zero), combine)
    ensures |proofs| == count && forall m :: 0 <= m < count ==> proofs[m] == ProofOf(levels, m)
  {
    var leaves := Leaves(count, leaf, zero);
    levels := BuildLevels(leaves, combine);
    LevelsAreShaped(leaves, combine, Height(count));
    proofs := BuildProofs(levels, count, Height(count));
  }

  /** Each level is half the one below it, down to a single node. */
  predicate Shaped<T>(levels: seq<seq<T>>, height: nat) {
    && |levels| == height + 1 && |levels[0]| == Pow2(height)
    && (height > 0 ==> Shaped(levels[1..], height - 1))
  }

  /** The inner loop: push the sibling, halve the index. */
  method Climb<T>(levels: seq<seq<T>>, member: nat, height: nat) returns (proof: seq<T>)
    requires Shaped(levels, height) && member < Pow2(height)
    ensures proof == ProofOf(levels, member)
  {
    var index: nat := member;
    proof := [];
    for l := 0 to height
      invariant Shaped(levels[l..], height - l) && index < Pow2(height - l)
      invariant proof + ProofOf(levels[l..], index) == ProofOf(levels, member)
    {
      SiblingIsInside(index, height - l);
      assert levels[l..][1..] == levels[l + 1..];
      proof := proof + [levels[l][Sibling(index)]];
      index := index / 2;
    }
  }

  lemma SiblingIsInside(index: nat, height: nat)
    requires height > 0 && index < Pow2(height)
    ensures Sibling(index) < Pow2(height) && index / 2 < Pow2(height - 1)
  {
    HalfIsInside(index, Pow2(height - 1));
  }

  lemma HalfIsInside(index: nat, half: nat)
    requires index < 2 * half
    ensures Sibling(index) < 2 * half && index / 2 < half
  {
  }

  /** The level-building loop ends after as many halvings as the tree is high. */
  lemma {:induction false} LevelsAreShaped<T>(level: seq<T>, combine: (T, T) -> T, height: nat)
    requires |level| == Pow2(height)
    ensures Shaped(Levels(level, combine), height)
    decreases height
  {
    if height > 0 {
      LevelsAreShaped(Halve(level, combine), combine, height - 1);
      assert Levels(level, combine)[1..] == Levels(Halve(level, combine), combine);
    }
  }

  /** The single node of the last level. */
  function Top<T>(level: seq<T>, combine: (T, T) -> T): T
    requires level != []
    decreases |level|
  {
    if |level| == 1 then level[0] else Top(Halve(level, combine), combine)
  }

  lemma {:induction false} LastLevelIsTop<T>(level: seq<T>, combine: (T, T) -> T)
    requires level != []
    ensures var levels := Levels(level, combine); levels[|levels| - 1] == [Top(level, combine)]
    decreases |level|
  {
    if |level| > 1 {
      LastLevelIsTop(Halve(level, combine), combine);
    }
  }

  lemma ParentOf<T>(level: seq<T>, combine: (T, T) -> T, index: nat)
    requires |level| % 2 == 0 && index < |level|
    ensures Sibling(index) < |level| && index / 2 < |level| / 2
    ensures Halve(level, combine)[index / 2]
            == if index % 2 == 0 then combine(level[index], level[Sibling(index)]) else combine(level[Sibling(index)], level[index])
  {
  }

  /** Every leaf, folded with its proof, gives the top node; every proof is as long as the tree is high. */
  lemma {:induction false} FoldReachesTop<T>(level: seq<T>, combine: (T, T) -> T, height: nat, index: nat)
    requires |level| == Pow2(height) && index < |level|
    ensures var proof := ProofOf(Levels(level, combine), index);
            |proof| == height && Fold(level[index], index, proof, combine) == Top(level, combine)
    decreases height
  {
    if height > 0 {
      var levels, next := Levels(level, combine), Halve(level, combine);
      ParentOf(level, combine, index);
      FoldReachesTop(next, combine, height - 1, index / 2);
      assert levels[1..] == Levels(next, combine);
      var above := ProofOf(levels[1..], index / 2);
      FoldStep(level[index], index, level[Sibling(index)], above, combine);
      assert ProofOf(levels, index) == [level[Sibling(index)]] + above;
    }
  }

  lemma FoldStep<T>(node: T, index: nat, first: T, more: seq<T>, combine: (T, T) -> T)
    ensures Fold(node, index, [first] + more, combine)
            == Fold(if index % 2 == 0 then combine(node, first) else combine(first, node), index / 2, more, combine)
  {
    assert ([first] + more)[1..] == more;
  }

  lemma HalvesHalve<T>(level: seq<T>, combine: (T, T) -> T, half: nat)
    requires half % 2 == 0 && |level| == 2 * half
    ensures Halve(level, combine)[..half / 2] == Halve(level[..half], combine)
    ensures Halve(level, combine)[half / 2..] == Halve(level[half..], combine)
  {
    assert forall i :: 0 <= i < half / 2 ==> level[half..][2 * i] == level[half + 2 * i];
  }

  lemma RootSplits<T>(level: seq<T>, combine: (T, T) -> T, half: nat)
    requires half >= 1 && |level| == 2 * half
    ensures Root(level, combine) == combine(Root(level[..half], combine), Root(level[half..], combine))
  {
  }

  lemma HalvingStep<T>(level: seq<T>, combine: (T, T) -> T, half: nat)
    requires half >= 2 && half % 2 == 0 && |level| == 2 * half
    requires Root(Halve(level[..half], combine), combine) == Root(level[..half], combine)
    requires Root(Halve(level[half..], combine), combine) == Root(level[half..], combine)
    ensures Root(Halve(level, combine), combine) == Root(level, combine)
  {
    HalvesHalve(level, combine, half);
    RootSplits(level, combine, half);
    RootSplits(Halve(level, combine), combine, half / 2);
  }

  lemma {:induction false} HalvingKeepsRoot<T>(level: seq<T>, combine: (T, T) -> T, height: nat)
    requires |level| == Pow2(height + 1)
    ensures Root(Halve(level, combine), combine) == Root(level, combine)
    decreases height
  {
    var half := Pow2(height);
    if height == 0 {
      assert |level| == 2;
    } else {
      assert half == 2 * Pow2(height - 1);
      HalvingKeepsRoot(level[..half], combine, height - 1);
      HalvingKeepsRoot(level[half..], combine, height - 1);
      HalvingStep(level, combine, half);
    }
  }

  lemma TopClimbs<T>(level: seq<T>, next: seq<T>, combine: (T, T) -> T)
    requires |level| > 1 && next == Halve(level, combine)
    ensures Top(level, combine) == Top(next, combine)
  {
  }

  lemma SingleIsRoot<T>(level: seq<T>, combine: (T, T) -> T)
    requires |level| == 1
    ensures Top(level, combine) == Root(level, combine) == level[0]
  {
  }

  lemma RootClimbs<T>(level: seq<T>, next: seq<T>, combine: (T, T) -> T, height: nat)
    requires |level| == Pow2(height + 1) && next == Halve(level, combine)
    ensures |next| == Pow2(height) && Root(next, combine) == Root(level, combine)
  {
    HalvingKeepsRoot(level, combine, height);
  }

  /** The top node is the root of the tree defined by halves. */
  lemma {:induction false} TopIsRoot<T>(level: seq<T>, combine: (T, T) -> T, height: nat)
    requires |level| == Pow2(height)
    ensures Top(level, combine) == Root(level, combine)
    decreases height
  {
    if height == 0 {
      SingleIsRoot(level, combine);
    } else {
      var next := Halve(level, combine);
      RootClimbs(level, next, combine, height - 1);
      TopIsRoot(next, combine, height - 1);
      TopClimbs(level, next, combine);
    }
  }

  ghost predicate Injective<T(!new)>(combine: (T, T) -> T) {
    forall a, b, c, d :: combine(a, b) == combine(c, d) ==> a == c && b == d
  }

  lemma {:induction false} FoldIsInjective<T(!new)>(
      a: T, b: T, index: nat, p: seq<T>, q: seq<T>, combine: (T, T) -> T)
    requires Injective(combine) && |p| == |q|
    requires Fold(a, index, p, combine) == Fold(b, index, q, combine)
    ensures a == b && p == q
  {
    if p != [] {
      var x := if index % 2 == 0 then combine(a, p[0]) else combine(p[0], a);
      var y := if index % 2 == 0 then combine(b, q[0]) else combine(q[0], b);
      FoldIsInjective(x, y, index / 2, p[1..], q[1..], combine);
      assert p == [p[0]] + p[1..] && q == [q[0]] + q[1..];
    }
  }

  /** For every approver count, each member's proof leads from its leaf to the one root. */
  lemma EveryMemberIsProved<T>(count: nat, leaf: nat -> T, zero: T, combine: (T, T) -> T, member: nat)
    requires member < count
    ensures var leaves := Leaves(count, leaf, zero);
            var proof := ProofOf(Levels(leaves, combine), member);
            |proof| == Height(count) && Fold(leaf(member), member, proof, combine) == Root(leaves, combine)
  {
    var leaves := Leaves(count, leaf, zero);
    FoldReachesTop(leaves, combine, Height(count), member);
    TopIsRoot(leaves, combine, Height(count));
  }

  /** With a hash that does not collide, a member's index accepts its own leaf and proof and no others. */
  lemma OnlyTheMemberIsProved<T(!new)>(
      count: nat, leaf: nat -> T, zero: T, combine: (T, T) -> T, member: nat, node: T, proof: seq<T>)
    requires member < count && Injective(combine) && |proof| == Height(count)
    ensures Fold(node, member, proof, combine) == Root(Leaves(count, leaf, zero), combine)
            <==> node == leaf(member) && proof == ProofOf(Levels(Leaves(count, leaf, zero), combine), member)
  {
    var own := ProofOf(Levels(Leaves(count, leaf, zero), combine), member);
    EveryMemberIsProved(count, leaf, zero, combine, member);
    if Fold(node, member, proof, combine) == Root(Leaves(count, leaf, zero), combine) {
      FoldIsInjective(node, leaf(member), member, proof, own, combine);
    }
  }
}
