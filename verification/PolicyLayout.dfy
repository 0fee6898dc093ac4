/** Where the preimage of a policy hash names its format and where its scalars stand. */
module PolicyLayout {
  import opened Wrappers
  import opened HexText
  import opened HexNumbers
  import opened PolicyEncoding
  import opened PolicyDecoding

  const NAME := "zkdeal/execution-policy/v5"

  /** The digits spell the text, two to a character. */
  predicate Spells(digits: string, text: string) {
    && |digits| == 2 * |text| && AllLowerHex(digits)
    && forall i :: 0 <= i < |text| ==> 16 * DigitValue(digits[2 * i]) + DigitValue(digits[2 * i + 1]) == text[i] as int
  }

  lemma SpellsPush(digits: string, text: string, high: char, low: char, c: char)
    requires Spells(digits, text) && IsLowerHex(high) && IsLowerHex(low)
    requires 16 * DigitValue(high) + DigitValue(low) == c as int
    ensures Spells(digits + [high, low], text + [c])
  {
  }

  lemma SpellsJoin(a: string, s: string, b: string, t: string)
    requires Spells(a, s) && Spells(b, t)
    ensures Spells(a + b, s + t)
  {
    forall i | 0 <= i < |s + t|
      ensures 16 * DigitValue((a + b)[2 * i]) + DigitValue((a + b)[2 * i + 1]) == (s + t)[i] as int
    {
      if i >= |s| {
        assert (a + b)[2 * i] == b[2 * (i - |s|)] && (a + b)[2 * i + 1] == b[2 * (i - |s|) + 1];
      }
    }
  }

  lemma Piece0()
    ensures Spells("7a6b64", "zkd")
  {
  }

  lemma Piece1()
    ensures Spells("65616c", "eal")
  {
  }

  lemma Piece2()
    ensures Spells("2f6578", "/ex")
  {
  }

  lemma Piece3()
    ensures Spells("656375", "ecu")
  {
  }

  lemma Piece4()
    ensures Spells("74696f", "tio")
  {
  }

  lemma Piece5()
    ensures Spells("6e2d70", "n-p")
  {
  }

  lemma Piece6()
    ensures Spells("6f6c69", "oli")
  {
  }

  lemma Piece7()
    ensures Spells("63792f", "cy/")
  {
  }

  lemma Piece8()
    ensures Spells("7635", "v5")
  {
  }

  lemma Third0()
    ensures Spells("7a6b6465616c2f6578", "zkdeal/ex")
  {
    Piece0();
    Piece1();
    Piece2();
    SpellsJoin("7a6b64", "zkd", "65616c", "eal");
    SpellsJoin("7a6b64" + "65616c", "zkd" + "eal", "2f6578", "/ex");
    assert "7a6b64" + "65616c" + "2f6578" == "7a6b6465616c2f6578";
    assert "zkd" + "eal" + "/ex" == "zkdeal/ex";
  }

  lemma Third1()
    ensures Spells("65637574696f6e2d70", "ecution-p")
  {
    Piece3();
    Piece4();
    Piece5();
    SpellsJoin("656375", "ecu", "74696f", "tio");
    SpellsJoin("656375" + "74696f", "ecu" + "tio", "6e2d70", "n-p");
    assert "656375" + "74696f" + "6e2d70" == "65637574696f6e2d70";
    assert "ecu" + "tio" + "n-p" == "ecution-p";
  }

  lemma Third2()
    ensures Spells("6f6c6963792f7635", "olicy/v5")
  {
    Piece6();
    Piece7();
    Piece8();
    SpellsJoin("6f6c69", "oli", "63792f", "cy/");
    SpellsJoin("6f6c69" + "63792f", "oli" + "cy/", "7635", "v5");
    assert "6f6c69" + "63792f" + "7635" == "6f6c6963792f7635";
    assert "oli" + "cy/" + "v5" == "olicy/v5";
  }

  lemma WholeDigits()
    ensures "7a6b6465616c2f6578" + "65637574696f6e2d70" + "6f6c6963792f7635" == Digits(DOMAIN)
  {
  }

  lemma WholeName()
    ensures "zkdeal/ex" + "ecution-p" + "olicy/v5" == NAME
  {
  }

  /** The tag every preimage begins with is the name of the format. */
  lemma DomainIsTheName()
    ensures Spells(Digits(DOMAIN), NAME)
  {
    Third0();
    Third1();
    Third2();
    SpellsJoin("7a6b6465616c2f6578", "zkdeal/ex", "65637574696f6e2d70", "ecution-p");
    SpellsJoin("7a6b6465616c2f6578" + "65637574696f6e2d70", "zkdeal/ex" + "ecution-p", "6f6c6963792f7635", "olicy/v5");
    WholeDigits();
    WholeName();
  }

  /** The bytes from `at` are this number. */
  predicate Holds(s: string, at: nat, bytes: nat, v: nat) {
    at + 2 * bytes <= |s| && AllLowerHex(s[at..at + 2 * bytes]) && HexValue(s[at..at + 2 * bytes]) == v
  }

  lemma ReadHolds(s: string, at: nat, bytes: nat)
    requires at <= |s| && ReadUint(s[at..], bytes).Took?
    ensures Holds(s, at, bytes, ReadUint(s[at..], bytes).value)
    ensures ReadUint(s[at..], bytes).rest == s[at + 2 * bytes..]
  {
    assert s[at..][..2 * bytes] == s[at..at + 2 * bytes];
  }

  function Bit(flag: bool): nat {
    if flag then 1 else 0
  }

  lemma FlagHolds(s: string, at: nat)
    requires at <= |s| && ReadFlag(s[at..]).Took?
    ensures Holds(s, at, 1, Bit(ReadFlag(s[at..]).value)) && ReadFlag(s[at..]).rest == s[at + 2..]
  {
    ReadHolds(s, at, 1);
  }

  lemma ScalarsHold(s: string, at: nat, l: Limits, rest: string)
    requires at <= |s| && ReadScalars(s[at..]) == Took(l, rest)
    ensures Holds(s, at, 1, l.stateCommitment) && Holds(s, at + 2, 8, l.maxBlocks)
    ensures Holds(s, at + 18, 8, l.maxTransactions) && Holds(s, at + 34, 8, l.maxGas) && Holds(s, at + 50, 8, l.maxMemory)
    ensures Holds(s, at + 66, 1, Bit(l.allowCreation)) && Holds(s, at + 68, 1, Bit(l.allowSelfDestruct))
    ensures rest == s[at + 70..]
  {
    ReadHolds(s, at, 1);
    ReadHolds(s, at + 2, 8);
    ReadHolds(s, at + 18, 8);
    ReadHolds(s, at + 34, 8);
    ReadHolds(s, at + 50, 8);
    FlagHolds(s, at + 66);
    FlagHolds(s, at + 68);
  }

  lemma CountHolds(s: string, at: nat, p: Policy, rest: string)
    requires Canonical(p) && at <= |s| && s[at..] == Join(ListChunks(CodeChunks, p.code), rest)
    ensures Holds(s, at, 8, |p.code|)
  {
    Widths();
    var count, items := HexUint(|p.code|, 8), ItemChunks(CodeChunks, p.code);
    JoinPush(count, items, rest);
    UintBack(|p.code|, 8, Join(items, rest));
    ReadHolds(s, at, 8);
  }

  /** The preimage opens with the format's name and the scalars, each in its place and width, then the code count. */
  lemma PreimageLayout(p: Policy)
    requires Canonical(p)
    ensures var s := Encode(p);
            && |s| >= 138 && Spells(s[..52], NAME)
            && Holds(s, 52, 1, p.limits.stateCommitment)
            && Holds(s, 54, 8, p.limits.maxBlocks)
            && Holds(s, 70, 8, p.limits.maxTransactions)
            && Holds(s, 86, 8, p.limits.maxGas)
            && Holds(s, 102, 8, p.limits.maxMemory)
            && Holds(s, 118, 1, Bit(p.limits.allowCreation))
            && Holds(s, 120, 1, Bit(p.limits.allowSelfDestruct))
            && Holds(s, 122, 8, |p.code|)
  {
    var s := Encode(p);
    PreimageParts(p, "");
    var after := Join(ListChunks(CallChunks, p.calls), Join(ListChunks(StorageChunks, p.storage),
      Join(ListChunks(ImportChunks, p.imports), Join(RegistryChunks(p.registry), Join(ExitChunks(p.exit), "")))));
    var code := Join(ListChunks(CodeChunks, p.code), after);
    LimitsBack(p.limits, code);
    DomainIsTheName();
    assert |Digits(DOMAIN)| == 52;
    assert s[..52] == Digits(DOMAIN);
    ScalarsHold(s, 52, p.limits, code);
    CountHolds(s, 122, p, after);
  }

  // ----- Where the fields of each entry stand

  /** The digits from `at` are the field's own, without its `0x`. */
  predicate Shows(s: string, at: nat, field: string) {
    |field| >= 2 && at + |field| - 2 <= |s| && s[at..at + |field| - 2] == field[2..]
  }

  /** Where the k-th chunk begins. */
  function Width(chunks: seq<string>, k: nat): nat
    requires k <= |chunks|
  {
    if k == 0 then 0 else |Digits(chunks[0])| + Width(chunks[1..], k - 1)
  }

  lemma {:induction false} WidthStep(chunks: seq<string>, k: nat)
    requires k < |chunks|
    ensures Width(chunks, k + 1) == Width(chunks, k) + |Digits(chunks[k])|
  {
    if k > 0 {
      WidthStep(chunks[1..], k - 1);
    }
  }

  lemma ShowsFirst(field: string, rest: string)
    requires |field| >= 2
    ensures Shows(Digits(field) + rest, 0, field)
  {
    assert (Digits(field) + rest)[0..|field| - 2] == field[2..];
  }

  lemma ShowsLater(front: string, s: string, at: nat, field: string)
    requires Shows(s, at, field)
    ensures Shows(front + s, |front| + at, field)
  {
    assert (front + s)[|front| + at..|front| + at + |field| - 2] == s[at..at + |field| - 2];
  }

  /** Every chunk stands, in order, right behind the ones before it, and what follows begins behind the last. */
  lemma {:induction false} ChunkStands(chunks: seq<string>, rest: string, k: nat)
    requires k < |chunks| && forall i :: 0 <= i < |chunks| ==> |chunks[i]| >= 2
    ensures Shows(Join(chunks, rest), Width(chunks, k), chunks[k])
  {
    if k == 0 {
      ShowsFirst(chunks[0], Join(chunks[1..], rest));
    } else {
      ChunkStands(chunks[1..], rest, k - 1);
      ShowsLater(Digits(chunks[0]), Join(chunks[1..], rest), Width(chunks[1..], k - 1), chunks[k]);
    }
  }

  lemma {:induction false} ChunksEnd(chunks: seq<string>, rest: string)
    ensures var s := Join(chunks, rest); Width(chunks, |chunks|) <= |s| && s[Width(chunks, |chunks|)..] == rest
  {
    if chunks != [] {
      ChunksEnd(chunks[1..], rest);
      var d, more, w := Digits(chunks[0]), Join(chunks[1..], rest), Width(chunks[1..], |chunks| - 1);
      assert (d + more)[|d| + w..] == more[w..];
    }
  }

  lemma ShownNumber(s: string, at: nat, v: nat, bytes: nat)
    requires 1 <= bytes && v < Pow16(2 * bytes) && Shows(s, at, HexUint(v, bytes))
    ensures Holds(s, at, bytes, v)
  {
    HexUintReadsBack(v, bytes);
  }

  lemma FirstWidths(chunks: seq<string>)
    requires |chunks| >= 2
    ensures Width(chunks, 0) == 0 && Width(chunks, 1) == |Digits(chunks[0])|
    ensures Width(chunks, 2) == |Digits(chunks[0])| + |Digits(chunks[1])|
  {
    WidthStep(chunks, 0);
    WidthStep(chunks, 1);
  }

  /** A code entry is its address and its code hash. */
  lemma CodeLayout(c: CodeEntry, rest: string)
    requires CanonicalCode(c)
    ensures var s := Join(CodeChunks(c), rest);
            Shows(s, 0, c.address) && Shows(s, 40, c.runtimeCodeHash) && |s| >= 104 && s[104..] == rest
  {
    var chunks := CodeChunks(c);
    FirstWidths(chunks);
    ChunkStands(chunks, rest, 0);
    ChunkStands(chunks, rest, 1);
    ChunksEnd(chunks, rest);
  }

  lemma FourWidths(chunks: seq<string>)
    requires |chunks| >= 4
    ensures Width(chunks, 3) == Width(chunks, 2) + |Digits(chunks[2])|
    ensures Width(chunks, 4) == Width(chunks, 3) + |Digits(chunks[3])|
  {
    WidthStep(chunks, 2);
    WidthStep(chunks, 3);
  }

  lemma StorageWidths(r: StorageRule)
    requires CanonicalStorage(r)
    ensures var chunks := StorageChunks(r);
            && (forall i :: 0 <= i < 4 ==> |chunks[i]| >= 2) && Width(chunks, 0) == 0
            && Width(chunks, 1) == 40 && Width(chunks, 2) == 104 && Width(chunks, 3) == 108
  {
    Widths();
    HexUintReadsBack(r.prefixBits, 2);
    HexUintReadsBack(Bit(r.writable), 1);
    FirstWidths(StorageChunks(r));
    FourWidths(StorageChunks(r));
  }

  /** A storage rule is its contract, slot prefix, prefix bits and writable flag. */
  lemma StorageLayout(r: StorageRule, rest: string)
    requires CanonicalStorage(r)
    ensures var s := Join(StorageChunks(r), rest);
            && Shows(s, 0, r.contract) && Shows(s, 40, r.slotPrefix)
            && Holds(s, 104, 2, r.prefixBits) && Holds(s, 108, 1, Bit(r.writable))
  {
    Widths();
    var chunks := StorageChunks(r);
    StorageWidths(r);
    ChunkStands(chunks, rest, 0);
    ChunkStands(chunks, rest, 1);
    ChunkStands(chunks, rest, 2);
    ChunkStands(chunks, rest, 3);
    ShownNumber(Join(chunks, rest), 104, r.prefixBits, 2);
    ShownNumber(Join(chunks, rest), 108, Bit(r.writable), 1);
  }

  lemma SixWidths(chunks: seq<string>)
    requires |chunks| >= 6
    ensures Width(chunks, 5) == Width(chunks, 4) + |Digits(chunks[4])|
    ensures Width(chunks, 6) == Width(chunks, 5) + |Digits(chunks[5])|
  {
    WidthStep(chunks, 4);
    WidthStep(chunks, 5);
  }

  lemma ImportWidths(r: ImportRule)
    requires CanonicalImport(r)
    ensures var chunks := ImportChunks(r);
            && Width(chunks, 0) == 0 && Width(chunks, 1) == 64 && Width(chunks, 2) == 128 && Width(chunks, 3) == 168
            && Width(chunks, 4) == 232 && Width(chunks, 5) == 272
  {
    var chunks := ImportChunks(r);
    FirstWidths(chunks);
    FourWidths(chunks);
    SixWidths(chunks);
  }

  /** An import names the adapter, its version, the source and its key, and the room's contract and slot. */
  lemma ImportLayout(r: ImportRule, rest: string)
    requires CanonicalImport(r)
    ensures var s := Join(ImportChunks(r), rest);
            && Shows(s, 0, r.adapterId) && Shows(s, 64, r.adapterVersion) && Shows(s, 128, r.source)
            && Shows(s, 168, r.sourceKey) && Shows(s, 232, r.roomContract) && Shows(s, 272, r.roomSlot)
  {
    var chunks := ImportChunks(r);
    ImportWidths(r);
    ChunkStands(chunks, rest, 0);
    ChunkStands(chunks, rest, 1);
    ChunkStands(chunks, rest, 2);
    ChunkStands(chunks, rest, 3);
    ChunkStands(chunks, rest, 4);
    ChunkStands(chunks, rest, 5);
  }

  lemma RegistryWidths(r: Registry)
    requires CanonicalRegistry(r)
    ensures var chunks := RegistryChunks(Some(r));
            && Width(chunks, 1) == 2 && Width(chunks, 2) == 42 && Width(chunks, 3) == 106
            && Width(chunks, 4) == 170 && Width(chunks, 5) == 234
  {
    Widths();
    var chunks := RegistryChunks(Some(r));
    HexUintReadsBack(1, 1);
    FirstWidths(chunks);
    FourWidths(chunks);
    SixWidths(chunks);
  }

  /** A registry is tagged 01, then its contract and its root, epoch, count and capacity slots; none is 00. */
  lemma RegistryLayout(r: Option<Registry>, rest: string)
    requires r.Some? ==> CanonicalRegistry(r.value)
    ensures var s := Join(RegistryChunks(r), rest);
            && Holds(s, 0, 1, if r.Some? then 1 else 0)
            && (r.Some? ==>
                  && Shows(s, 2, r.value.contract) && Shows(s, 42, r.value.rootSlot) && Shows(s, 106, r.value.epochSlot)
                  && Shows(s, 170, r.value.countSlot) && Shows(s, 234, r.value.capacitySlot))
  {
    Widths();
    var chunks := RegistryChunks(r);
    HexUintReadsBack(1, 1);
    HexUintReadsBack(0, 1);
    ChunkStands(chunks, rest, 0);
    ShownNumber(Join(chunks, rest), 0, if r.Some? then 1 else 0, 1);
    if r.Some? {
      RegistryWidths(r.value);
      ChunkStands(chunks, rest, 1);
      ChunkStands(chunks, rest, 2);
      ChunkStands(chunks, rest, 3);
      ChunkStands(chunks, rest, 4);
      ChunkStands(chunks, rest, 5);
    }
  }

  lemma AssetWidths(a: ExitAsset)
    requires CanonicalAsset(a)
    ensures var chunks := AssetChunks(a);
            && (forall i :: 0 <= i < 4 ==> |chunks[i]| >= 2) && Width(chunks, 0) == 0
            && Width(chunks, 1) == 40 && Width(chunks, 2) == 42 && Width(chunks, 3) == 82
  {
    Widths();
    HexUintReadsBack(a.kind, 1);
    FirstWidths(AssetChunks(a));
    FourWidths(AssetChunks(a));
  }

  /** An exit asset is its asset, kind, token and balance slot. */
  lemma AssetLayout(a: ExitAsset, rest: string)
    requires CanonicalAsset(a)
    ensures var s := Join(AssetChunks(a), rest);
            Shows(s, 0, a.asset) && Holds(s, 40, 1, a.kind) && Shows(s, 42, a.token) && Shows(s, 82, a.balanceSlot)
  {
    Widths();
    var chunks := AssetChunks(a);
    AssetWidths(a);
    ChunkStands(chunks, rest, 0);
    ChunkStands(chunks, rest, 1);
    ChunkStands(chunks, rest, 2);
    ChunkStands(chunks, rest, 3);
    ShownNumber(Join(chunks, rest), 40, a.kind, 1);
  }
}
