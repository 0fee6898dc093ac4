/** A reader of policy preimages, and the proof that it recovers every canonical policy. */
module PolicyDecoding {
  import opened Wrappers
  import opened HexText
  import opened HexNumbers
  import opened PolicyEncoding

  datatype Parsed<+T> = Fail | Took(value: T, rest: string) {
    predicate IsFailure() {
      Fail?
    }

    function PropagateFailure<U>(): Parsed<U>
      requires Fail?
    {
      Fail
    }

    function Extract(): (T, string)
      requires Took?
    {
      (value, rest)
    }
  }

  // ----- The reader

  function ReadBytes(s: string, bytes: nat): Parsed<string> {
    if |s| >= 2 * bytes && AllLowerHex(s[..2 * bytes]) then Took("0x" + s[..2 * bytes], s[2 * bytes..]) else Fail
  }

  function ReadUint(s: string, bytes: nat): Parsed<nat> {
    if |s| >= 2 * bytes && AllLowerHex(s[..2 * bytes]) then Took(HexValue(s[..2 * bytes]), s[2 * bytes..]) else Fail
  }

  function ReadFlag(s: string): Parsed<bool> {
    var (v, rest) :- ReadUint(s, 1);
    if v > 1 then Fail else Took(v == 1, rest)
  }

  function ReadItems<T>(read: string -> Parsed<T>, count: nat, s: string): Parsed<seq<T>> {
    if count == 0 then Took([], s)
    else
      var (front, s1) :- ReadItems(read, count - 1, s);
      var (item, s2) :- read(s1);
      Took(front + [item], s2)
  }

  function ReadList<T>(read: string -> Parsed<T>, s: string): Parsed<seq<T>> {
    var (count, s1) :- ReadUint(s, 8);
    ReadItems(read, count, s1)
  }

  function ReadLimits(s: string): Parsed<Limits> {
    var tag := Digits(DOMAIN);
    if tag <= s then ReadScalars(s[|tag|..]) else Fail
  }

  function ReadScalars(s: string): Parsed<Limits> {
    var (commitment, s1) :- ReadUint(s, 1);
    var (blocks, s2) :- ReadUint(s1, 8);
    var (transactions, s3) :- ReadUint(s2, 8);
    var (gas, s4) :- ReadUint(s3, 8);
    var (memory, s5) :- ReadUint(s4, 8);
    var (creation, s6) :- ReadFlag(s5);
    var (destruct, s7) :- ReadFlag(s6);
    Took(Limits(commitment, blocks, transactions, gas, memory, creation, destruct), s7)
  }

  function ReadCode(s: string): Parsed<CodeEntry> {
    var (address, s1) :- ReadBytes(s, 20);
    var (codeHash, s2) :- ReadBytes(s1, 32);
    Took(CodeEntry(address, codeHash), s2)
  }

  function ReadSelector(s: string): Parsed<string> {
    ReadBytes(s, 4)
  }

  function ReadKind(s: string): Parsed<nat> {
    ReadUint(s, 1)
  }

  function ReadCall(s: string): Parsed<CallRule> {
    var (caller, s1) :- ReadBytes(s, 20);
    var (target, s2) :- ReadBytes(s1, 20);
    var (selectors, s3) :- ReadList(ReadSelector, s2);
    var (kinds, s4) :- ReadList(ReadKind, s3);
    Took(CallRule(caller, target, selectors, kinds), s4)
  }

  function ReadStorage(s: string): Parsed<StorageRule> {
    var (contract, s1) :- ReadBytes(s, 20);
    var (prefix, s2) :- ReadBytes(s1, 32);
    var (bits, s3) :- ReadUint(s2, 2);
    var (writable, s4) :- ReadFlag(s3);
    Took(StorageRule(contract, prefix, bits, writable), s4)
  }

  function ReadImport(s: string): Parsed<ImportRule> {
    var (adapter, s1) :- ReadBytes(s, 32);
    var (version, s2) :- ReadBytes(s1, 32);
    var (source, s3) :- ReadBytes(s2, 20);
    var (key, s4) :- ReadBytes(s3, 32);
    var (contract, s5) :- ReadBytes(s4, 20);
    var (slot, s6) :- ReadBytes(s5, 32);
    Took(ImportRule(adapter, version, source, key, contract, slot), s6)
  }

  function ReadRegistry(s: string): Parsed<Option<Registry>> {
    var (present, s0) :- ReadFlag(s);
    if !present then Took(None, s0)
    else
      var (contract, s1) :- ReadBytes(s0, 20);
      var (root, s2) :- ReadBytes(s1, 32);
      var (epoch, s3) :- ReadBytes(s2, 32);
      var (count, s4) :- ReadBytes(s3, 32);
      var (capacity, s5) :- ReadBytes(s4, 32);
      Took(Some(Registry(contract, root, epoch, count, capacity)), s5)
  }

  function ReadAsset(s: string): Parsed<ExitAsset> {
    var (asset, s1) :- ReadBytes(s, 20);
    var (kind, s2) :- ReadUint(s1, 1);
    var (token, s3) :- ReadBytes(s2, 20);
    var (slot, s4) :- ReadBytes(s3, 32);
    Took(ExitAsset(asset, kind, token, slot), s4)
  }

  /** Nothing left means no binding; otherwise the tail must begin with the byte one. */
  function ReadExit(s: string): Parsed<Option<Exit>> {
    if s == "" then Took(None, s)
    else
      var (present, s0) :- ReadFlag(s);
      if !present then Fail
      else
        var (queue, s1) :- ReadBytes(s0, 20);
        var (count, s2) :- ReadBytes(s1, 32);
        var (records, s3) :- ReadBytes(s2, 32);
        var (assets, s4) :- ReadList(ReadAsset, s3);
        var (fallback, s5) :- ReadBytes(s4, 20);
        Took(Some(Exit(queue, count, records, assets, fallback)), s5)
  }

  function ReadPolicy(s: string): Parsed<Policy> {
    var (limits, s1) :- ReadLimits(s);
    var (code, s2) :- ReadList(ReadCode, s1);
    var (calls, s3) :- ReadList(ReadCall, s2);
    var (storage, s4) :- ReadList(ReadStorage, s3);
    var (imports, s5) :- ReadList(ReadImport, s4);
    var (registry, s6) :- ReadRegistry(s5);
    var (exit, s7) :- ReadExit(s6);
    Took(Policy(limits, code, calls, storage, imports, registry, exit), s7)
  }

  /** The policy whose preimage this is, if the whole string is one. */
  function Decode(s: string): Option<Policy> {
    var parsed := ReadPolicy(s);
    if parsed.Took? && parsed.rest == "" then Some(parsed.value) else None
  }

  // ----- Reading back what was written

  lemma BytesBack(chunk: string, bytes: nat, rest: string)
    requires IsBytes(chunk, bytes)
    ensures ReadBytes(Digits(chunk) + rest, bytes) == Took(chunk, rest)
  {
    var s := Digits(chunk) + rest;
    assert s[..2 * bytes] == chunk[2..];
    assert s[2 * bytes..] == rest;
    assert chunk == "0x" + chunk[2..];
  }

  lemma UintBack(v: nat, bytes: nat, rest: string)
    requires 1 <= bytes && v < Pow16(2 * bytes)
    ensures ReadUint(Digits(HexUint(v, bytes)) + rest, bytes) == Took(v, rest)
  {
    HexUintReadsBack(v, bytes);
    var digits := Digits(HexUint(v, bytes));
    assert (digits + rest)[..2 * bytes] == digits;
    assert (digits + rest)[2 * bytes..] == rest;
  }

  lemma FlagBack(flag: bool, rest: string)
    ensures ReadFlag(Digits(FlagChunk(flag)) + rest) == Took(flag, rest)
  {
    Widths();
    UintBack(if flag then 1 else 0, 1, rest);
  }

  lemma {:induction false} JoinSplit(a: seq<string>, b: seq<string>, rest: string)
    ensures Join(a + b, rest) == Join(a, Join(b, rest))
  {
    if a == [] {
      assert a + b == b;
    } else {
      JoinSplit(a[1..], b, rest);
      assert (a + b)[1..] == a[1..] + b;
      assert Digits(a[0]) + Join(a[1..] + b, rest) == Join(a + b, rest);
    }
  }

  lemma JoinOne(a: string, rest: string)
    ensures Join([a], rest) == Digits(a) + rest
  {
  }

  lemma JoinPush(a: string, more: seq<string>, rest: string)
    ensures Join([a] + more, rest) == Digits(a) + Join(more, rest)
  {
    assert ([a] + more)[1..] == more;
  }

  lemma JoinTwo(a: string, b: string, rest: string)
    ensures Join([a, b], rest) == Digits(a) + (Digits(b) + rest)
  {
    assert [a, b] == [a] + [b];
    JoinPush(a, [b], rest);
    JoinOne(b, rest);
  }

  lemma JoinFour(a: string, b: string, c: string, d: string, rest: string)
    ensures Join([a, b, c, d], rest) == Digits(a) + (Digits(b) + (Digits(c) + (Digits(d) + rest)))
  {
    assert [a, b, c, d] == [a, b] + [c, d];
    JoinSplit([a, b], [c, d], rest);
    JoinTwo(c, d, rest);
    JoinTwo(a, b, Join([c, d], rest));
  }

  lemma JoinSix(a: string, b: string, c: string, d: string, e: string, f: string, rest: string)
    ensures Join([a, b, c, d, e, f], rest)
            == Digits(a) + (Digits(b) + (Digits(c) + (Digits(d) + (Digits(e) + (Digits(f) + rest)))))
  {
    assert [a, b, c, d, e, f] == [a, b] + [c, d, e, f];
    JoinSplit([a, b], [c, d, e, f], rest);
    JoinFour(c, d, e, f, rest);
    JoinTwo(a, b, Join([c, d, e, f], rest));
  }

  /** The reader recovers this item and leaves what follows it untouched. */
  ghost predicate ReadsBack<T(!new)>(encode: T -> seq<string>, read: string -> Parsed<T>, item: T) {
    forall rest: string :: read(Join(encode(item), rest)) == Took(item, rest)
  }

  lemma {:induction false} ItemsBack<T(!new)>(
      encode: T -> seq<string>, read: string -> Parsed<T>, items: seq<T>, rest: string)
    requires forall i :: 0 <= i < |items| ==> ReadsBack(encode, read, items[i])
    ensures ReadItems(read, |items|, Join(ItemChunks(encode, items), rest)) == Took(items, rest)
  {
    if items != [] {
      var front, last := items[..|items| - 1], items[|items| - 1];
      var tail := Join(encode(last), rest);
      JoinSplit(ItemChunks(encode, front), encode(last), rest);
      ItemsBack(encode, read, front, tail);
      assert ReadsBack(encode, read, last);
      assert front + [last] == items;
    }
  }

  lemma ListBack<T(!new)>(encode: T -> seq<string>, read: string -> Parsed<T>, items: seq<T>, rest: string)
    requires |items| <= MAX_ARRAY_LENGTH
    requires forall i :: 0 <= i < |items| ==> ReadsBack(encode, read, items[i])
    ensures ReadList(read, Join(ListChunks(encode, items), rest)) == Took(items, rest)
  {
    Widths();
    var tail := Join(ItemChunks(encode, items), rest);
    JoinPush(HexUint(|items|, 8), ItemChunks(encode, items), rest);
    UintBack(|items|, 8, tail);
    ItemsBack(encode, read, items, rest);
  }

  lemma CodeBack(c: CodeEntry)
    requires CanonicalCode(c)
    ensures ReadsBack(CodeChunks, ReadCode, c)
  {
    forall rest: string ensures ReadCode(Join(CodeChunks(c), rest)) == Took(c, rest) {
      JoinTwo(c.address, c.runtimeCodeHash, rest);
      BytesBack(c.address, 20, Digits(c.runtimeCodeHash) + rest);
      BytesBack(c.runtimeCodeHash, 32, rest);
    }
  }

  lemma SelectorBack(s: string)
    requires IsSelector(s)
    ensures ReadsBack(SelectorChunks, ReadSelector, s)
  {
    forall rest: string ensures ReadSelector(Join(SelectorChunks(s), rest)) == Took(s, rest) {
      JoinOne(s, rest);
      BytesBack(s, 4, rest);
    }
  }

  lemma KindBack(kind: nat)
    requires kind <= MAX_CALL_KIND
    ensures ReadsBack(KindChunks, ReadKind, kind)
  {
    Widths();
    forall rest: string ensures ReadKind(Join(KindChunks(kind), rest)) == Took(kind, rest) {
      JoinOne(HexUint(kind, 1), rest);
      UintBack(kind, 1, rest);
    }
  }

  lemma CallBack(c: CallRule)
    requires CanonicalCall(c)
    ensures ReadsBack(CallChunks, ReadCall, c)
  {
    forall i | 0 <= i < |c.selectors| ensures ReadsBack(SelectorChunks, ReadSelector, c.selectors[i]) {
      SelectorBack(c.selectors[i]);
    }
    forall i | 0 <= i < |c.kinds| ensures ReadsBack(KindChunks, ReadKind, c.kinds[i]) {
      KindBack(c.kinds[i]);
    }
    forall rest: string ensures ReadCall(Join(CallChunks(c), rest)) == Took(c, rest) {
      var selectors, kinds := ListChunks(SelectorChunks, c.selectors), ListChunks(KindChunks, c.kinds);
      var s3 := Join(kinds, rest);
      var s2 := Join(selectors, s3);
      JoinSplit([c.caller, c.target] + selectors, kinds, rest);
      JoinSplit([c.caller, c.target], selectors, s3);
      JoinTwo(c.caller, c.target, s2);
      BytesBack(c.caller, 20, Digits(c.target) + s2);
      BytesBack(c.target, 20, s2);
      ListBack(SelectorChunks, ReadSelector, c.selectors, s3);
      ListBack(KindChunks, ReadKind, c.kinds, rest);
    }
  }

  lemma StorageBack(r: StorageRule)
    requires CanonicalStorage(r)
    ensures ReadsBack(StorageChunks, ReadStorage, r)
  {
    Widths();
    forall rest: string ensures ReadStorage(Join(StorageChunks(r), rest)) == Took(r, rest) {
      var bits := HexUint(r.prefixBits, 2);
      var s3 := Digits(FlagChunk(r.writable)) + rest;
      JoinFour(r.contract, r.slotPrefix, bits, FlagChunk(r.writable), rest);
      BytesBack(r.contract, 20, Digits(r.slotPrefix) + (Digits(bits) + s3));
      BytesBack(r.slotPrefix, 32, Digits(bits) + s3);
      UintBack(r.prefixBits, 2, s3);
      FlagBack(r.writable, rest);
    }
  }

  lemma ImportBack(r: ImportRule)
    requires CanonicalImport(r)
    ensures ReadsBack(ImportChunks, ReadImport, r)
  {
    forall rest: string ensures ReadImport(Join(ImportChunks(r), rest)) == Took(r, rest) {
      var s5 := Digits(r.roomSlot) + rest;
      var s4 := Digits(r.roomContract) + s5;
      var s3 := Digits(r.sourceKey) + s4;
      var s2 := Digits(r.source) + s3;
      JoinSix(r.adapterId, r.adapterVersion, r.source, r.sourceKey, r.roomContract, r.roomSlot, rest);
      BytesBack(r.adapterId, 32, Digits(r.adapterVersion) + s2);
      BytesBack(r.adapterVersion, 32, s2);
      BytesBack(r.source, 20, s3);
      BytesBack(r.sourceKey, 32, s4);
      BytesBack(r.roomContract, 20, s5);
      BytesBack(r.roomSlot, 32, rest);
    }
  }

  lemma RegistryBack(r: Option<Registry>, rest: string)
    requires r.Some? ==> CanonicalRegistry(r.value)
    ensures ReadRegistry(Join(RegistryChunks(r), rest)) == Took(r, rest)
  {
    if r.None? {
      JoinOne(FlagChunk(false), rest);
      FlagBack(false, rest);
    } else {
      var v := r.value;
      var s5 := Digits(v.capacitySlot) + rest;
      var s4 := Digits(v.countSlot) + s5;
      var s3 := Digits(v.epochSlot) + s4;
      var s2 := Digits(v.rootSlot) + s3;
      JoinSix(FlagChunk(true), v.contract, v.rootSlot, v.epochSlot, v.countSlot, v.capacitySlot, rest);
      FlagBack(true, Digits(v.contract) + s2);
      BytesBack(v.contract, 20, s2);
      BytesBack(v.rootSlot, 32, s3);
      BytesBack(v.epochSlot, 32, s4);
      BytesBack(v.countSlot, 32, s5);
      BytesBack(v.capacitySlot, 32, rest);
    }
  }

  lemma AssetBack(a: ExitAsset)
    requires CanonicalAsset(a)
    ensures ReadsBack(AssetChunks, ReadAsset, a)
  {
    Widths();
    forall rest: string ensures ReadAsset(Join(AssetChunks(a), rest)) == Took(a, rest) {
      var s3 := Digits(a.balanceSlot) + rest;
      var s2 := Digits(a.token) + s3;
      JoinFour(a.asset, HexUint(a.kind, 1), a.token, a.balanceSlot, rest);
      BytesBack(a.asset, 20, Digits(HexUint(a.kind, 1)) + s2);
      UintBack(a.kind, 1, s2);
      BytesBack(a.token, 20, s3);
      BytesBack(a.balanceSlot, 32, rest);
    }
  }

  lemma ExitBack(e: Option<Exit>)
    requires e.Some? ==> CanonicalExit(e.value)
    ensures ReadExit(Join(ExitChunks(e), "")) == Took(e, "")
  {
    if e.Some? {
      var v := e.value;
      forall i | 0 <= i < |v.assets| ensures ReadsBack(AssetChunks, ReadAsset, v.assets[i]) {
        AssetBack(v.assets[i]);
      }
      var head, assets := [FlagChunk(true), v.queueContract, v.countSlot, v.recordsBaseSlot],
        ListChunks(AssetChunks, v.assets);
      var s5 := Join([v.fallbackRecipient], "");
      var s4 := Join(assets, s5);
      var s3 := Digits(v.recordsBaseSlot) + s4;
      var s2 := Digits(v.countSlot) + s3;
      JoinSplit(head + assets, [v.fallbackRecipient], "");
      JoinSplit(head, assets, s5);
      JoinFour(FlagChunk(true), v.queueContract, v.countSlot, v.recordsBaseSlot, s4);
      JoinOne(v.fallbackRecipient, "");
      FlagBack(true, Digits(v.queueContract) + s2);
      BytesBack(v.queueContract, 20, s2);
      BytesBack(v.countSlot, 32, s3);
      BytesBack(v.recordsBaseSlot, 32, s4);
      ListBack(AssetChunks, ReadAsset, v.assets, s5);
      BytesBack(v.fallbackRecipient, 20, "");
    }
  }

  lemma ScalarsInOrder(
      l: Limits, s: string, s1: string, s2: string, s3: string, s4: string, s5: string, s6: string, rest: string)
    requires ReadUint(s, 1) == Took(l.stateCommitment, s1)
    requires ReadUint(s1, 8) == Took(l.maxBlocks, s2)
    requires ReadUint(s2, 8) == Took(l.maxTransactions, s3)
    requires ReadUint(s3, 8) == Took(l.maxGas, s4)
    requires ReadUint(s4, 8) == Took(l.maxMemory, s5)
    requires ReadFlag(s5) == Took(l.allowCreation, s6)
    requires ReadFlag(s6) == Took(l.allowSelfDestruct, rest)
    ensures ReadScalars(s) == Took(l, rest)
  {
  }

  lemma ScalarsBack(l: Limits, rest: string)
    requires CanonicalLimits(l)
    ensures ReadScalars(Join(LimitChunks(l)[1..], rest)) == Took(l, rest)
  {
    Widths();
    var commitment, blocks, transactions := HexUint(l.stateCommitment, 1), HexUint(l.maxBlocks, 8), HexUint(l.maxTransactions, 8);
    var gas, memory := HexUint(l.maxGas, 8), HexUint(l.maxMemory, 8);
    var creation, destruct := FlagChunk(l.allowCreation), FlagChunk(l.allowSelfDestruct);
    assert LimitChunks(l)[1..] == [commitment, blocks, transactions, gas, memory, creation] + [destruct];
    JoinSplit([commitment, blocks, transactions, gas, memory, creation], [destruct], rest);
    JoinOne(destruct, rest);
    var s6 := Digits(destruct) + rest;
    JoinSix(commitment, blocks, transactions, gas, memory, creation, s6);
    var s5 := Digits(creation) + s6;
    var s4 := Digits(memory) + s5;
    var s3 := Digits(gas) + s4;
    var s2 := Digits(transactions) + s3;
    var s1 := Digits(blocks) + s2;
    UintBack(l.stateCommitment, 1, s1);
    UintBack(l.maxBlocks, 8, s2);
    UintBack(l.maxTransactions, 8, s3);
    UintBack(l.maxGas, 8, s4);
    UintBack(l.maxMemory, 8, s5);
    FlagBack(l.allowCreation, s6);
    FlagBack(l.allowSelfDestruct, rest);
    ScalarsInOrder(l, Digits(commitment) + s1, s1, s2, s3, s4, s5, s6, rest);
  }

  lemma LimitsBack(l: Limits, rest: string)
    requires CanonicalLimits(l)
    ensures ReadLimits(Join(LimitChunks(l), rest)) == Took(l, rest)
  {
    var scalars := LimitChunks(l)[1..];
    assert LimitChunks(l) == [DOMAIN] + scalars;
    JoinPush(DOMAIN, scalars, rest);
    var tag := Digits(DOMAIN);
    assert (tag + Join(scalars, rest))[|tag|..] == Join(scalars, rest);
    ScalarsBack(l, rest);
  }

  lemma CodeListBack(p: Policy, rest: string)
    requires Canonical(p)
    ensures ReadList(ReadCode, Join(ListChunks(CodeChunks, p.code), rest)) == Took(p.code, rest)
  {
    forall i | 0 <= i < |p.code| ensures ReadsBack(CodeChunks, ReadCode, p.code[i]) {
      CodeBack(p.code[i]);
    }
    ListBack(CodeChunks, ReadCode, p.code, rest);
  }

  lemma CallListBack(p: Policy, rest: string)
    requires Canonical(p)
    ensures ReadList(ReadCall, Join(ListChunks(CallChunks, p.calls), rest)) == Took(p.calls, rest)
  {
    forall i | 0 <= i < |p.calls| ensures ReadsBack(CallChunks, ReadCall, p.calls[i]) {
      CallBack(p.calls[i]);
    }
    ListBack(CallChunks, ReadCall, p.calls, rest);
  }

  lemma StorageListBack(p: Policy, rest: string)
    requires Canonical(p)
    ensures ReadList(ReadStorage, Join(ListChunks(StorageChunks, p.storage), rest)) == Took(p.storage, rest)
  {
    forall i | 0 <= i < |p.storage| ensures ReadsBack(StorageChunks, ReadStorage, p.storage[i]) {
      StorageBack(p.storage[i]);
    }
    ListBack(StorageChunks, ReadStorage, p.storage, rest);
  }

  lemma ImportListBack(p: Policy, rest: string)
    requires Canonical(p)
    ensures ReadList(ReadImport, Join(ListChunks(ImportChunks, p.imports), rest)) == Took(p.imports, rest)
  {
    forall i | 0 <= i < |p.imports| ensures ReadsBack(ImportChunks, ReadImport, p.imports[i]) {
      ImportBack(p.imports[i]);
    }
    ListBack(ImportChunks, ReadImport, p.imports, rest);
  }

  /** The preimage as its parts, read from the left. */
  lemma PreimageParts(p: Policy, rest: string)
    ensures Join(PolicyChunks(p), rest)
            == Join(LimitChunks(p.limits), Join(ListChunks(CodeChunks, p.code), Join(ListChunks(CallChunks, p.calls),
                 Join(ListChunks(StorageChunks, p.storage), Join(ListChunks(ImportChunks, p.imports),
                   Join(RegistryChunks(p.registry), Join(ExitChunks(p.exit), rest)))))))
  {
    var limits, code, calls := LimitChunks(p.limits), ListChunks(CodeChunks, p.code), ListChunks(CallChunks, p.calls);
    var storage, imports := ListChunks(StorageChunks, p.storage), ListChunks(ImportChunks, p.imports);
    var registry, exit := RegistryChunks(p.registry), ExitChunks(p.exit);
    JoinSplit(limits + code + calls + storage + imports + registry, exit, rest);
    var s6 := Join(exit, rest);
    JoinSplit(limits + code + calls + storage + imports, registry, s6);
    var s5 := Join(registry, s6);
    JoinSplit(limits + code + calls + storage, imports, s5);
    var s4 := Join(imports, s5);
    JoinSplit(limits + code + calls, storage, s4);
    var s3 := Join(storage, s4);
    JoinSplit(limits + code, calls, s3);
    JoinSplit(limits, code, Join(calls, s3));
  }

  /** The reader's stages, one after another. */
  lemma ReadsInOrder(p: Policy, s: string, s1: string, s2: string, s3: string, s4: string, s5: string, s6: string)
    ensures
      && ReadLimits(s) == Took(p.limits, s1)
      && ReadList(ReadCode, s1) == Took(p.code, s2)
      && ReadList(ReadCall, s2) == Took(p.calls, s3)
      && ReadList(ReadStorage, s3) == Took(p.storage, s4)
      && ReadList(ReadImport, s4) == Took(p.imports, s5)
      && ReadRegistry(s5) == Took(p.registry, s6)
      && ReadExit(s6) == Took(p.exit, "")
      ==> Decode(s) == Some(p)
  {
  }

  /** The preimage of a canonical policy determines the policy. */
  lemma DecodeRecovers(p: Policy)
    requires Canonical(p)
    ensures Decode(Encode(p)) == Some(p)
  {
    PreimageParts(p, "");
    var s6 := Join(ExitChunks(p.exit), "");
    var s5 := Join(RegistryChunks(p.registry), s6);
    var s4 := Join(ListChunks(ImportChunks, p.imports), s5);
    var s3 := Join(ListChunks(StorageChunks, p.storage), s4);
    var s2 := Join(ListChunks(CallChunks, p.calls), s3);
    var s1 := Join(ListChunks(CodeChunks, p.code), s2);
    LimitsBack(p.limits, s1);
    CodeListBack(p, s2);
    CallListBack(p, s3);
    StorageListBack(p, s4);
    ImportListBack(p, s5);
    RegistryBack(p.registry, s6);
    ExitBack(p.exit);
    ReadsInOrder(p, Encode(p), s1, s2, s3, s4, s5, s6);
  }

  /** Canonical policies have the same preimage exactly when they are the same policy. */
  lemma EncodeIsInjective(p: Policy, q: Policy)
    requires Canonical(p) && Canonical(q)
    ensures Encode(p) == Encode(q) <==> p == q
  {
    DecodeRecovers(p);
    DecodeRecovers(q);
  }

  lemma {:induction false} JoinPrefix(chunks: seq<string>, rest: string)
    ensures Join(chunks, rest) == Join(chunks, "") + rest
  {
    if chunks != [] {
      JoinPrefix(chunks[1..], rest);
    }
  }

  lemma TailBegins(e: Exit)
    ensures var tail := Join(ExitChunks(Some(e)), "");
            |tail| >= 2 && tail[..2] == "01"
  {
    var more := [e.queueContract, e.countSlot, e.recordsBaseSlot] + ListChunks(AssetChunks, e.assets)
      + [e.fallbackRecipient];
    assert ExitChunks(Some(e)) == [HexUint(1, 1)] + more;
    JoinPush(HexUint(1, 1), more, "");
    assert HexUint(1, 1) == "0x01";
  }

  /** An exit binding only adds a tail, which is not empty and begins with the byte one. */
  lemma ExitIsATail(p: Policy)
    requires p.exit.Some?
    ensures var tail := Join(ExitChunks(p.exit), "");
            && Encode(p) == Encode(p.(exit := None)) + tail
            && |tail| >= 2 && tail[..2] == "01"
  {
    var body := PolicyChunks(p.(exit := None));
    assert body == BodyChunks(p);
    JoinSplit(body, ExitChunks(p.exit), "");
    JoinPrefix(body, Join(ExitChunks(p.exit), ""));
    TailBegins(p.exit.value);
  }
}
