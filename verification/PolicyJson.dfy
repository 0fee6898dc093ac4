/**
 * Normalising the JSON a caller sends into a canonical policy, or refusing it.
 * JSON values are those a JavaScript parser produces.
 */
module PolicyJson {
  import opened Wrappers
  import opened HexText
  import opened HexNumbers
  import opened PolicyEncoding
  import PolicyDecoding

  /** Field names of the wire format; `Unknown` is any other name. */
  datatype Key =
    | StateCommitment | MaxBlocksPerBatch | MaxTransactionsPerBlock | MaxGasPerBlock | MaxMemoryBytes
    | AllowContractCreation | AllowSelfDestruct | Code | Calls | Storage | Imports | ParticipantRegistry | ExitKey
    | Address | RuntimeCodeHash
    | Caller | Target | Selectors | Kinds
    | Contract | SlotPrefix | PrefixBits | Writable
    | AdapterId | AdapterVersion | Source | SourceKey | RoomContract | RoomSlot
    | RootSlot | EpochSlot | CountSlot | CapacitySlot
    | QueueContract | RecordsBaseSlot | Assets | FallbackRecipient
    | Asset | Kind | Token | BalanceSlot
    | Unknown(name: string)

  /** `OtherNumber` is any number that is not an integer. */
  datatype Json =
    | Null | Bool(flag: bool) | Number(int) | OtherNumber | Text(text: string)
    | Array(items: seq<Json>) | Object(fields: map<Key, Json>)

  datatype PolicyError =
    | NotAnObject | WrongFields | NotAnArray | NotBoolean | NotUnsigned | TooWide | Malformed | Unsupported

  // ----- Scalars

  predicate IsHexLiteral(s: string) {
    |s| >= 3 && s[0] == '0' && (s[1] == 'x' || s[1] == 'X') && AllHex(s[2..])
  }

  /** The integer a JSON value spells: a safe number, a decimal without leading zeros, or a hexadecimal literal. */
  function IntegerOf(j: Json): Option<int> {
    match j
    case Number(n) => if -MAX_SAFE_INTEGER <= n <= MAX_SAFE_INTEGER then Some(n) else None
    case Text(s) =>
      if IsDecimal(s) then Some(DecimalValue(s))
      else if IsHexLiteral(s) then
        LowerIsLowerHex(s[2..]);
        Some(HexValue(Lower(s[2..])))
      else None
    case _ => None
  }

  function Unsigned(j: Json, bits: nat): Result<nat, PolicyError> {
    var n := IntegerOf(j);
    if n.None? then Err(NotUnsigned)
    else if n.value < 0 || n.value >= Pow16(bits / 4) then Err(TooWide)
    else Ok(n.value)
  }

  function SafeNumber(j: Json, bits: nat): Result<nat, PolicyError> {
    var n :- Unsigned(j, bits);
    if n > MAX_SAFE_INTEGER then Err(TooWide) else Ok(n)
  }

  /** Text no fixed pattern accepts. */
  const UNMATCHED := ","

  /**
   * What JavaScript prints for the value: an array of one prints as its
   * element, longer arrays print commas, and null prints nothing.
   */
  function TextOf(j: Json): string {
    match j
    case Text(s) => s
    case Null => ""
    case Array(items) => if |items| == 1 then TextOf(items[0]) else if items == [] then "" else UNMATCHED
    case _ => UNMATCHED
  }

  function Fixed(j: Json, bytes: nat): Result<string, PolicyError> {
    var text := Lower(TextOf(j));
    if IsBytes(text, bytes) then Ok(text) else Err(Malformed)
  }

  function Flag(j: Json): Result<bool, PolicyError> {
    if j.Bool? then Ok(j.flag) else Err(NotBoolean)
  }

  function Slot(j: Json): Result<string, PolicyError> {
    var n :- Unsigned(j, 256);
    Ok(HexUint(n, 32))
  }

  // ----- Objects and arrays

  function Fields(j: Json, keys: set<Key>): (r: Result<map<Key, Json>, PolicyError>)
    ensures r.Ok? <==> j.Object? && j.fields.Keys == keys
    ensures r.Ok? ==> r.value == j.fields
  {
    if !j.Object? then Err(NotAnObject)
    else if j.fields.Keys != keys then Err(WrongFields)
    else Ok(j.fields)
  }

  /** No JavaScript array is longer than the bound. */
  function Items(j: Json): (r: Result<seq<Json>, PolicyError>)
    ensures r.Ok? <==> j.Array? && |j.items| <= MAX_ARRAY_LENGTH
    ensures r.Ok? ==> r.value == j.items
  {
    if j.Array? && |j.items| <= MAX_ARRAY_LENGTH then Ok(j.items) else Err(NotAnArray)
  }

  function NormalizeAll<T>(normalize: Json -> Result<T, PolicyError>, items: seq<Json>): Result<seq<T>, PolicyError> {
    if items == [] then Ok([])
    else
      var front :- NormalizeAll(normalize, items[..|items| - 1]);
      var last :- normalize(items[|items| - 1]);
      Ok(front + [last])
  }

  function NormalizeList<T>(normalize: Json -> Result<T, PolicyError>, j: Json): Result<seq<T>, PolicyError> {
    var items :- Items(j);
    NormalizeAll(normalize, items)
  }

  const CODE_KEYS := {Address, RuntimeCodeHash}
  const CALL_KEYS := {Caller, Target, Selectors, Kinds}
  const STORAGE_KEYS := {Contract, SlotPrefix, PrefixBits, Writable}
  const IMPORT_KEYS := {AdapterId, AdapterVersion, Source, SourceKey, RoomContract, RoomSlot}
  const REGISTRY_KEYS := {Contract, RootSlot, EpochSlot, CountSlot, CapacitySlot}
  const EXIT_KEYS := {QueueContract, CountSlot, RecordsBaseSlot, Assets, FallbackRecipient}
  const ASSET_KEYS := {Asset, Kind, Token, BalanceSlot}
  const LIMIT_KEYS := {StateCommitment, MaxBlocksPerBatch, MaxTransactionsPerBlock, MaxGasPerBlock, MaxMemoryBytes,
                       AllowContractCreation, AllowSelfDestruct}
  const BASE_KEYS := LIMIT_KEYS + {Code, Calls, Storage, Imports, ParticipantRegistry}

  function NormalizeCode(j: Json): Result<CodeEntry, PolicyError> {
    var row :- Fields(j, CODE_KEYS);
    var address :- Fixed(row[Address], 20);
    var codeHash :- Fixed(row[RuntimeCodeHash], 32);
    Ok(CodeEntry(address, codeHash))
  }

  function NormalizeSelector(j: Json): Result<string, PolicyError> {
    Fixed(j, 4)
  }

  function NormalizeKind(j: Json): Result<nat, PolicyError> {
    var kind :- SafeNumber(j, 8);
    if kind > MAX_CALL_KIND then Err(Unsupported) else Ok(kind)
  }

  function NormalizeCall(j: Json): Result<CallRule, PolicyError> {
    var row :- Fields(j, CALL_KEYS);
    var selectors :- NormalizeList(NormalizeSelector, row[Selectors]);
    var kinds :- NormalizeList(NormalizeKind, row[Kinds]);
    var caller :- Fixed(row[Caller], 20);
    var target :- Fixed(row[Target], 20);
    Ok(CallRule(caller, target, selectors, kinds))
  }

  function NormalizeStorage(j: Json): Result<StorageRule, PolicyError> {
    var row :- Fields(j, STORAGE_KEYS);
    var bits :- SafeNumber(row[PrefixBits], 16);
    if bits > MAX_PREFIX_BITS then Err(Unsupported)
    else
      var contract :- Fixed(row[Contract], 20);
      var prefix :- Slot(row[SlotPrefix]);
      var writable :- Flag(row[Writable]);
      Ok(StorageRule(contract, prefix, bits, writable))
  }

  function NormalizeImport(j: Json): Result<ImportRule, PolicyError> {
    var row :- Fields(j, IMPORT_KEYS);
    var adapter :- Fixed(row[AdapterId], 32);
    var version :- Fixed(row[AdapterVersion], 32);
    var source :- Fixed(row[Source], 20);
    var key :- Slot(row[SourceKey]);
    var contract :- Fixed(row[RoomContract], 20);
    var slot :- Slot(row[RoomSlot]);
    Ok(ImportRule(adapter, version, source, key, contract, slot))
  }

  function NormalizeRegistry(j: Json): Result<Option<Registry>, PolicyError> {
    if j.Null? then Ok(None)
    else
      var row :- Fields(j, REGISTRY_KEYS);
      var contract :- Fixed(row[Contract], 20);
      var root :- Slot(row[RootSlot]);
      var epoch :- Slot(row[EpochSlot]);
      var count :- Slot(row[CountSlot]);
      var capacity :- Slot(row[CapacitySlot]);
      Ok(Some(Registry(contract, root, epoch, count, capacity)))
  }

  function NormalizeAsset(j: Json): Result<ExitAsset, PolicyError> {
    var row :- Fields(j, ASSET_KEYS);
    var asset :- Fixed(row[Asset], 20);
    var kind :- SafeNumber(row[Kind], 8);
    var token :- Fixed(row[Token], 20);
    var slot :- Slot(row[BalanceSlot]);
    Ok(ExitAsset(asset, kind, token, slot))
  }

  /** A missing and a null exit read alike. */
  function NormalizeExit(row: map<Key, Json>): Result<Option<Exit>, PolicyError> {
    if ExitKey !in row || row[ExitKey].Null? then Ok(None)
    else
      var exit :- Fields(row[ExitKey], EXIT_KEYS);
      var assets :- NormalizeList(NormalizeAsset, exit[Assets]);
      var queue :- Fixed(exit[QueueContract], 20);
      var count :- Slot(exit[CountSlot]);
      var records :- Slot(exit[RecordsBaseSlot]);
      var fallback :- Fixed(exit[FallbackRecipient], 20);
      Ok(Some(Exit(queue, count, records, assets, fallback)))
  }

  function NormalizeLimits(row: map<Key, Json>): Result<Limits, PolicyError>
    requires LIMIT_KEYS <= row.Keys
  {
    var commitment :- SafeNumber(row[StateCommitment], 8);
    var blocks :- SafeNumber(row[MaxBlocksPerBatch], 64);
    var transactions :- SafeNumber(row[MaxTransactionsPerBlock], 64);
    var gas :- SafeNumber(row[MaxGasPerBlock], 64);
    var memory :- SafeNumber(row[MaxMemoryBytes], 64);
    var creation :- Flag(row[AllowContractCreation]);
    var destruct :- Flag(row[AllowSelfDestruct]);
    Ok(Limits(commitment, blocks, transactions, gas, memory, creation, destruct))
  }

  function PolicyFields(j: Json): (r: Result<map<Key, Json>, PolicyError>)
    ensures r.Ok? ==> j.Object? && r.value == j.fields && BASE_KEYS <= r.value.Keys
  {
    Fields(j, if j.Object? && ExitKey in j.fields then BASE_KEYS + {ExitKey} else BASE_KEYS)
  }

  function NormalizeRow(row: map<Key, Json>): Result<Policy, PolicyError>
    requires BASE_KEYS <= row.Keys
  {
    var code :- NormalizeList(NormalizeCode, row[Code]);
    var calls :- NormalizeList(NormalizeCall, row[Calls]);
    var storage :- NormalizeList(NormalizeStorage, row[Storage]);
    var imports :- NormalizeList(NormalizeImport, row[Imports]);
    var registry :- NormalizeRegistry(row[ParticipantRegistry]);
    var exit :- NormalizeExit(row);
    var limits :- NormalizeLimits(row);
    Ok(Policy(limits, code, calls, storage, imports, registry, exit))
  }

  function NormalizePolicy(j: Json): Result<Policy, PolicyError> {
    var row :- PolicyFields(j);
    NormalizeRow(row)
  }

  // ----- A canonical policy as JSON

  function WriteAll<T>(write: T -> Json, items: seq<T>): Json {
    Array(seq(|items|, i requires 0 <= i < |items| => write(items[i])))
  }

  function WriteText(s: string): Json {
    Text(s)
  }

  function WriteNumber(n: nat): Json {
    Number(n)
  }

  function WriteCode(c: CodeEntry): Json {
    Object(map[Address := Text(c.address), RuntimeCodeHash := Text(c.runtimeCodeHash)])
  }

  function WriteCall(c: CallRule): Json {
    Object(map[Caller := Text(c.caller), Target := Text(c.target),
               Selectors := WriteAll(WriteText, c.selectors), Kinds := WriteAll(WriteNumber, c.kinds)])
  }

  function WriteStorage(s: StorageRule): Json {
    Object(map[Contract := Text(s.contract), SlotPrefix := Text(s.slotPrefix),
               PrefixBits := Number(s.prefixBits), Writable := Bool(s.writable)])
  }

  function WriteImport(i: ImportRule): Json {
    Object(map[AdapterId := Text(i.adapterId), AdapterVersion := Text(i.adapterVersion), Source := Text(i.source),
               SourceKey := Text(i.sourceKey), RoomContract := Text(i.roomContract), RoomSlot := Text(i.roomSlot)])
  }

  function WriteRegistry(r: Option<Registry>): Json {
    if r.None? then Null
    else
      Object(map[Contract := Text(r.value.contract), RootSlot := Text(r.value.rootSlot),
                 EpochSlot := Text(r.value.epochSlot), CountSlot := Text(r.value.countSlot),
                 CapacitySlot := Text(r.value.capacitySlot)])
  }

  function WriteAsset(a: ExitAsset): Json {
    Object(map[Asset := Text(a.asset), Kind := Number(a.kind), Token := Text(a.token), BalanceSlot := Text(a.balanceSlot)])
  }

  function WriteExit(e: Exit): Json {
    Object(map[QueueContract := Text(e.queueContract), CountSlot := Text(e.countSlot),
               RecordsBaseSlot := Text(e.recordsBaseSlot), Assets := WriteAll(WriteAsset, e.assets),
               FallbackRecipient := Text(e.fallbackRecipient)])
  }

  function WriteLimits(l: Limits): map<Key, Json> {
    map[StateCommitment := Number(l.stateCommitment), MaxBlocksPerBatch := Number(l.maxBlocks),
        MaxTransactionsPerBlock := Number(l.maxTransactions), MaxGasPerBlock := Number(l.maxGas),
        MaxMemoryBytes := Number(l.maxMemory), AllowContractCreation := Bool(l.allowCreation),
        AllowSelfDestruct := Bool(l.allowSelfDestruct)]
  }

  function WriteParts(p: Policy): map<Key, Json> {
    map[Code := WriteAll(WriteCode, p.code), Calls := WriteAll(WriteCall, p.calls),
        Storage := WriteAll(WriteStorage, p.storage), Imports := WriteAll(WriteImport, p.imports),
        ParticipantRegistry := WriteRegistry(p.registry)]
  }

  /** The canonical value itself: a policy without a binding has no exit field. */
  function WritePolicy(p: Policy): Json {
    var base := WriteLimits(p.limits) + WriteParts(p);
    Object(if p.exit.Some? then base[ExitKey := WriteExit(p.exit.value)] else base)
  }

  // ----- Scalars, proved

  lemma LowerIsLowerHex(s: string)
    requires AllHex(s)
    ensures AllLowerHex(Lower(s))
  {
  }

  lemma LowerKeeps(s: string, bytes: nat)
    requires IsBytes(s, bytes)
    ensures Lower(s) == s
  {
    assert s == "0x" + s[2..];
    assert forall i :: 0 <= i < |s| ==> LowerChar(s[i]) == s[i] by {
      forall i | 0 <= i < |s| ensures LowerChar(s[i]) == s[i] {
        if i >= 2 {
          assert s[i] == s[2..][i - 2];
        }
      }
    }
  }

  lemma FixedKeeps(s: string, bytes: nat)
    requires IsBytes(s, bytes)
    ensures Fixed(Text(s), bytes) == Ok(s)
  {
    LowerKeeps(s, bytes);
  }

  lemma NumberKeeps(n: nat, bits: nat)
    requires n <= MAX_SAFE_INTEGER && n < Pow16(bits / 4)
    ensures SafeNumber(Number(n), bits) == Ok(n)
  {
  }

  lemma SlotIsWord(j: Json)
    ensures Slot(j).Ok? ==> IsWord(Slot(j).value)
  {
    var n := Unsigned(j, 256);
    if n.Ok? {
      HexUintReadsBack(n.value, 32);
    }
  }

  /** A word is its own number's fixed-width spelling. */
  lemma SlotKeeps(s: string)
    requires IsWord(s)
    ensures Slot(Text(s)) == Ok(s)
  {
    var digits := s[2..];
    assert s == "0x" + digits;
    assert !IsDigit(s[1]);
    assert AllHex(digits);
    LowerKeeps(s, 32);
    assert Lower(digits) == digits by {
      assert forall i :: 0 <= i < |digits| ==> digits[i] == s[i + 2] && Lower(s)[i + 2] == LowerChar(digits[i]);
    }
    DigitsAreCanonical(digits);
  }

  // ----- What is accepted is canonical

  ghost predicate Sound<T>(normalize: Json -> Result<T, PolicyError>, canonical: T -> bool, j: Json) {
    normalize(j).Ok? ==> canonical(normalize(j).value)
  }

  lemma {:induction false} AllSound<T>(
      normalize: Json -> Result<T, PolicyError>, canonical: T -> bool, items: seq<Json>)
    requires forall i :: 0 <= i < |items| ==> Sound(normalize, canonical, items[i])
    ensures var r := NormalizeAll(normalize, items);
            r.Ok? ==> |r.value| == |items| && forall i :: 0 <= i < |r.value| ==> canonical(r.value[i])
  {
    if items != [] {
      AllSound(normalize, canonical, items[..|items| - 1]);
      assert Sound(normalize, canonical, items[|items| - 1]);
    }
  }

  lemma ListSound<T(!new)>(normalize: Json -> Result<T, PolicyError>, canonical: T -> bool, j: Json)
    requires forall k :: Sound(normalize, canonical, k)
    ensures var r := NormalizeList(normalize, j);
            r.Ok? ==> |r.value| <= MAX_ARRAY_LENGTH && forall i :: 0 <= i < |r.value| ==> canonical(r.value[i])
  {
    if Items(j).Ok? {
      AllSound(normalize, canonical, j.items);
    }
  }

  lemma CodeSound(j: Json)
    ensures Sound(NormalizeCode, CanonicalCode, j)
  {
  }

  predicate CanonicalKind(kind: nat) {
    kind <= MAX_CALL_KIND
  }

  lemma CallSound(j: Json)
    ensures Sound(NormalizeCall, CanonicalCall, j)
  {
    if NormalizeCall(j).Ok? {
      ListSound(NormalizeSelector, IsSelector, j.fields[Selectors]);
      ListSound(NormalizeKind, CanonicalKind, j.fields[Kinds]);
    }
  }

  lemma StorageSound(j: Json)
    ensures Sound(NormalizeStorage, CanonicalStorage, j)
  {
    if NormalizeStorage(j).Ok? {
      SlotIsWord(j.fields[SlotPrefix]);
    }
  }

  lemma ImportSound(j: Json)
    ensures Sound(NormalizeImport, CanonicalImport, j)
  {
    if NormalizeImport(j).Ok? {
      SlotIsWord(j.fields[SourceKey]);
      SlotIsWord(j.fields[RoomSlot]);
    }
  }

  lemma AssetSound(j: Json)
    ensures Sound(NormalizeAsset, CanonicalAsset, j)
  {
    Widths();
    if NormalizeAsset(j).Ok? {
      SlotIsWord(j.fields[BalanceSlot]);
    }
  }

  lemma RegistrySound(j: Json)
    ensures var r := NormalizeRegistry(j); r.Ok? && r.value.Some? ==> CanonicalRegistry(r.value.value)
  {
    var r := NormalizeRegistry(j);
    if r.Ok? && r.value.Some? {
      SlotIsWord(j.fields[RootSlot]);
      SlotIsWord(j.fields[EpochSlot]);
      SlotIsWord(j.fields[CountSlot]);
      SlotIsWord(j.fields[CapacitySlot]);
    }
  }

  lemma ExitSound(row: map<Key, Json>)
    ensures var r := NormalizeExit(row); r.Ok? && r.value.Some? ==> CanonicalExit(r.value.value)
  {
    var r := NormalizeExit(row);
    if r.Ok? && r.value.Some? {
      var exit := row[ExitKey].fields;
      forall k ensures Sound(NormalizeAsset, CanonicalAsset, k) {
        AssetSound(k);
      }
      ListSound(NormalizeAsset, CanonicalAsset, exit[Assets]);
      SlotIsWord(exit[CountSlot]);
      SlotIsWord(exit[RecordsBaseSlot]);
    }
  }

  lemma LimitsSound(row: map<Key, Json>)
    requires LIMIT_KEYS <= row.Keys
    ensures var r := NormalizeLimits(row); r.Ok? ==> CanonicalLimits(r.value)
  {
    Widths();
  }

  lemma PolicyListsSound(row: map<Key, Json>)
    requires BASE_KEYS <= row.Keys
    ensures var code := NormalizeList(NormalizeCode, row[Code]);
            code.Ok? ==> |code.value| <= MAX_ARRAY_LENGTH
                         && forall i :: 0 <= i < |code.value| ==> CanonicalCode(code.value[i])
    ensures var calls := NormalizeList(NormalizeCall, row[Calls]);
            calls.Ok? ==> |calls.value| <= MAX_ARRAY_LENGTH
                          && forall i :: 0 <= i < |calls.value| ==> CanonicalCall(calls.value[i])
    ensures var storage := NormalizeList(NormalizeStorage, row[Storage]);
            storage.Ok? ==> |storage.value| <= MAX_ARRAY_LENGTH
                            && forall i :: 0 <= i < |storage.value| ==> CanonicalStorage(storage.value[i])
    ensures var imports := NormalizeList(NormalizeImport, row[Imports]);
            imports.Ok? ==> |imports.value| <= MAX_ARRAY_LENGTH
                            && forall i :: 0 <= i < |imports.value| ==> CanonicalImport(imports.value[i])
  {
    forall k ensures Sound(NormalizeCode, CanonicalCode, k) {
      CodeSound(k);
    }
    forall k ensures Sound(NormalizeCall, CanonicalCall, k) {
      CallSound(k);
    }
    forall k ensures Sound(NormalizeStorage, CanonicalStorage, k) {
      StorageSound(k);
    }
    forall k ensures Sound(NormalizeImport, CanonicalImport, k) {
      ImportSound(k);
    }
    ListSound(NormalizeCode, CanonicalCode, row[Code]);
    ListSound(NormalizeCall, CanonicalCall, row[Calls]);
    ListSound(NormalizeStorage, CanonicalStorage, row[Storage]);
    ListSound(NormalizeImport, CanonicalImport, row[Imports]);
  }

  /** Whatever is accepted comes out canonical. */
  lemma AcceptedIsCanonical(j: Json)
    ensures NormalizePolicy(j).Ok? ==> Canonical(NormalizePolicy(j).value)
  {
    if NormalizePolicy(j).Ok? {
      PolicyListsSound(j.fields);
      RegistrySound(j.fields[ParticipantRegistry]);
      ExitSound(j.fields);
      LimitsSound(j.fields);
    }
  }

  // ----- Canonical policies are fixed points

  ghost predicate Keeps<T>(normalize: Json -> Result<T, PolicyError>, write: T -> Json, item: T) {
    normalize(write(item)) == Ok(item)
  }

  lemma {:induction false} AllKept<T>(normalize: Json -> Result<T, PolicyError>, write: T -> Json, items: seq<T>)
    requires forall i :: 0 <= i < |items| ==> Keeps(normalize, write, items[i])
    ensures NormalizeAll(normalize, WriteAll(write, items).items) == Ok(items)
  {
    if items != [] {
      var front, written := items[..|items| - 1], WriteAll(write, items).items;
      AllKept(normalize, write, front);
      assert written[..|items| - 1] == WriteAll(write, front).items;
      assert Keeps(normalize, write, items[|items| - 1]);
      assert front + [items[|items| - 1]] == items;
    }
  }

  lemma ListKept<T>(normalize: Json -> Result<T, PolicyError>, write: T -> Json, items: seq<T>)
    requires |items| <= MAX_ARRAY_LENGTH
    requires forall i :: 0 <= i < |items| ==> Keeps(normalize, write, items[i])
    ensures NormalizeList(normalize, WriteAll(write, items)) == Ok(items)
  {
    AllKept(normalize, write, items);
  }

  lemma CodeKept(c: CodeEntry)
    requires CanonicalCode(c)
    ensures Keeps(NormalizeCode, WriteCode, c)
  {
    FixedKeeps(c.address, 20);
    FixedKeeps(c.runtimeCodeHash, 32);
    assert WriteCode(c).fields.Keys == CODE_KEYS;
  }

  lemma CallKept(c: CallRule)
    requires CanonicalCall(c)
    ensures Keeps(NormalizeCall, WriteCall, c)
  {
    Widths();
    forall i | 0 <= i < |c.selectors| ensures Keeps(NormalizeSelector, WriteText, c.selectors[i]) {
      FixedKeeps(c.selectors[i], 4);
    }
    forall i | 0 <= i < |c.kinds| ensures Keeps(NormalizeKind, WriteNumber, c.kinds[i]) {
      NumberKeeps(c.kinds[i], 8);
    }
    ListKept(NormalizeSelector, WriteText, c.selectors);
    ListKept(NormalizeKind, WriteNumber, c.kinds);
    FixedKeeps(c.caller, 20);
    FixedKeeps(c.target, 20);
    assert WriteCall(c).fields.Keys == CALL_KEYS;
  }

  lemma StorageKept(s: StorageRule)
    requires CanonicalStorage(s)
    ensures Keeps(NormalizeStorage, WriteStorage, s)
  {
    Widths();
    NumberKeeps(s.prefixBits, 16);
    FixedKeeps(s.contract, 20);
    SlotKeeps(s.slotPrefix);
    assert WriteStorage(s).fields.Keys == STORAGE_KEYS;
  }

  lemma ImportKept(i: ImportRule)
    requires CanonicalImport(i)
    ensures Keeps(NormalizeImport, WriteImport, i)
  {
    FixedKeeps(i.adapterId, 32);
    FixedKeeps(i.adapterVersion, 32);
    FixedKeeps(i.source, 20);
    SlotKeeps(i.sourceKey);
    FixedKeeps(i.roomContract, 20);
    SlotKeeps(i.roomSlot);
    assert WriteImport(i).fields.Keys == IMPORT_KEYS;
  }

  lemma RegistryKept(r: Option<Registry>)
    requires r.Some? ==> CanonicalRegistry(r.value)
    ensures NormalizeRegistry(WriteRegistry(r)) == Ok(r)
  {
    if r.Some? {
      FixedKeeps(r.value.contract, 20);
      SlotKeeps(r.value.rootSlot);
      SlotKeeps(r.value.epochSlot);
      SlotKeeps(r.value.countSlot);
      SlotKeeps(r.value.capacitySlot);
      assert WriteRegistry(r).fields.Keys == REGISTRY_KEYS;
    }
  }

  lemma AssetKept(a: ExitAsset)
    requires CanonicalAsset(a)
    ensures Keeps(NormalizeAsset, WriteAsset, a)
  {
    Widths();
    FixedKeeps(a.asset, 20);
    NumberKeeps(a.kind, 8);
    FixedKeeps(a.token, 20);
    SlotKeeps(a.balanceSlot);
    assert WriteAsset(a).fields.Keys == ASSET_KEYS;
  }

  lemma ExitKept(e: Exit, row: map<Key, Json>)
    requires CanonicalExit(e) && ExitKey in row && row[ExitKey] == WriteExit(e)
    ensures NormalizeExit(row) == Ok(Some(e))
  {
    forall i | 0 <= i < |e.assets| ensures Keeps(NormalizeAsset, WriteAsset, e.assets[i]) {
      AssetKept(e.assets[i]);
    }
    ListKept(NormalizeAsset, WriteAsset, e.assets);
    FixedKeeps(e.queueContract, 20);
    SlotKeeps(e.countSlot);
    SlotKeeps(e.recordsBaseSlot);
    FixedKeeps(e.fallbackRecipient, 20);
    assert WriteExit(e).fields.Keys == EXIT_KEYS;
  }

  lemma LimitsKept(l: Limits, row: map<Key, Json>)
    requires CanonicalLimits(l) && LIMIT_KEYS <= row.Keys
    requires forall k :: k in LIMIT_KEYS ==> k in WriteLimits(l) && row[k] == WriteLimits(l)[k]
    ensures NormalizeLimits(row) == Ok(l)
  {
    Widths();
    NumberKeeps(l.stateCommitment, 8);
    NumberKeeps(l.maxBlocks, 64);
    NumberKeeps(l.maxTransactions, 64);
    NumberKeeps(l.maxGas, 64);
    NumberKeeps(l.maxMemory, 64);
    WrittenLimits(l, row);
  }

  lemma WrittenLimits(l: Limits, row: map<Key, Json>)
    requires LIMIT_KEYS <= row.Keys
    requires forall k :: k in LIMIT_KEYS ==> k in WriteLimits(l) && row[k] == WriteLimits(l)[k]
    ensures row[StateCommitment] == Number(l.stateCommitment) && row[MaxBlocksPerBatch] == Number(l.maxBlocks)
    ensures row[MaxTransactionsPerBlock] == Number(l.maxTransactions) && row[MaxGasPerBlock] == Number(l.maxGas)
    ensures row[MaxMemoryBytes] == Number(l.maxMemory)
    ensures row[AllowContractCreation] == Bool(l.allowCreation) && row[AllowSelfDestruct] == Bool(l.allowSelfDestruct)
  {
    assert StateCommitment in LIMIT_KEYS && MaxBlocksPerBatch in LIMIT_KEYS && MaxTransactionsPerBlock in LIMIT_KEYS;
    assert MaxGasPerBlock in LIMIT_KEYS && MaxMemoryBytes in LIMIT_KEYS;
    assert AllowContractCreation in LIMIT_KEYS && AllowSelfDestruct in LIMIT_KEYS;
  }

  lemma PolicyListsKept(p: Policy)
    requires Canonical(p)
    ensures NormalizeList(NormalizeCode, WriteAll(WriteCode, p.code)) == Ok(p.code)
    ensures NormalizeList(NormalizeCall, WriteAll(WriteCall, p.calls)) == Ok(p.calls)
    ensures NormalizeList(NormalizeStorage, WriteAll(WriteStorage, p.storage)) == Ok(p.storage)
    ensures NormalizeList(NormalizeImport, WriteAll(WriteImport, p.imports)) == Ok(p.imports)
  {
    forall i | 0 <= i < |p.code| ensures Keeps(NormalizeCode, WriteCode, p.code[i]) {
      CodeKept(p.code[i]);
    }
    forall i | 0 <= i < |p.calls| ensures Keeps(NormalizeCall, WriteCall, p.calls[i]) {
      CallKept(p.calls[i]);
    }
    forall i | 0 <= i < |p.storage| ensures Keeps(NormalizeStorage, WriteStorage, p.storage[i]) {
      StorageKept(p.storage[i]);
    }
    forall i | 0 <= i < |p.imports| ensures Keeps(NormalizeImport, WriteImport, p.imports[i]) {
      ImportKept(p.imports[i]);
    }
    ListKept(NormalizeCode, WriteCode, p.code);
    ListKept(NormalizeCall, WriteCall, p.calls);
    ListKept(NormalizeStorage, WriteStorage, p.storage);
    ListKept(NormalizeImport, WriteImport, p.imports);
  }

  lemma WrittenParts(p: Policy, limits: map<Key, Json>, parts: map<Key, Json>)
    requires limits == WriteLimits(p.limits) && parts == WriteParts(p)
    ensures limits.Keys == LIMIT_KEYS && parts.Keys == BASE_KEYS - LIMIT_KEYS
  {
  }

  lemma Layered(limits: map<Key, Json>, parts: map<Key, Json>, exit: Json)
    requires limits.Keys == LIMIT_KEYS && parts.Keys == BASE_KEYS - LIMIT_KEYS
    ensures var base := limits + parts;
            && base.Keys == BASE_KEYS && ExitKey !in base && base[ExitKey := exit].Keys == BASE_KEYS + {ExitKey}
            && (forall k :: k in LIMIT_KEYS ==> base[k] == limits[k])
            && (forall k :: k in parts ==> base[k] == parts[k])
  {
    assert LIMIT_KEYS <= BASE_KEYS;
  }

  lemma WrittenFields(p: Policy)
    ensures PolicyFields(WritePolicy(p)).Ok?
    ensures var row := WritePolicy(p).fields;
            && (forall k :: k in WriteParts(p) ==> k in row && row[k] == WriteParts(p)[k])
            && (forall k :: k in LIMIT_KEYS ==> k in WriteLimits(p.limits) && row[k] == WriteLimits(p.limits)[k])
            && (p.exit.Some? ==> ExitKey in row && row[ExitKey] == WriteExit(p.exit.value))
            && (p.exit.None? ==> ExitKey !in row)
  {
    var limits, parts := WriteLimits(p.limits), WriteParts(p);
    WrittenParts(p, limits, parts);
    Layered(limits, parts, if p.exit.Some? then WriteExit(p.exit.value) else Null);
  }

  /** Every canonical policy is accepted as itself. */
  lemma CanonicalIsFixed(p: Policy)
    requires Canonical(p)
    ensures NormalizePolicy(WritePolicy(p)) == Ok(p)
  {
    WrittenFields(p);
    var row := WritePolicy(p).fields;
    PolicyListsKept(p);
    RegistryKept(p.registry);
    if p.exit.Some? {
      ExitKept(p.exit.value, row);
    }
    LimitsKept(p.limits, row);
    WrittenPartsOf(p);
    PartsNormalize(p, row);
  }

  lemma WrittenPartsOf(p: Policy)
    ensures var parts := WriteParts(p);
            && parts.Keys == {Code, Calls, Storage, Imports, ParticipantRegistry}
            && parts[Code] == WriteAll(WriteCode, p.code) && parts[Calls] == WriteAll(WriteCall, p.calls)
            && parts[Storage] == WriteAll(WriteStorage, p.storage) && parts[Imports] == WriteAll(WriteImport, p.imports)
            && parts[ParticipantRegistry] == WriteRegistry(p.registry)
  {
  }

  /** The row's parts, put together. */
  lemma PartsNormalize(p: Policy, row: map<Key, Json>)
    requires BASE_KEYS <= row.Keys
    ensures
      && NormalizeList(NormalizeCode, row[Code]) == Ok(p.code)
      && NormalizeList(NormalizeCall, row[Calls]) == Ok(p.calls)
      && NormalizeList(NormalizeStorage, row[Storage]) == Ok(p.storage)
      && NormalizeList(NormalizeImport, row[Imports]) == Ok(p.imports)
      && NormalizeRegistry(row[ParticipantRegistry]) == Ok(p.registry)
      && NormalizeExit(row) == Ok(p.exit) && NormalizeLimits(row) == Ok(p.limits)
      ==> NormalizeRow(row) == Ok(p)
  {
  }

  /** Normalising twice is normalising once. */
  lemma NormalizingIsIdempotent(j: Json)
    ensures NormalizePolicy(j).Ok? ==> NormalizePolicy(WritePolicy(NormalizePolicy(j).value)) == NormalizePolicy(j)
  {
    if NormalizePolicy(j).Ok? {
      AcceptedIsCanonical(j);
      CanonicalIsFixed(NormalizePolicy(j).value);
    }
  }

  /** A policy without an exit field and one with a null exit field are the same policy, or the same refusal. */
  lemma AbsentExitIsNullExit(j: Json)
    requires j.Object? && ExitKey !in j.fields
    ensures NormalizePolicy(j) == NormalizePolicy(Object(j.fields[ExitKey := Null]))
  {
    var row, other := j.fields, j.fields[ExitKey := Null];
    assert other.Keys == row.Keys + {ExitKey};
    assert row.Keys == other.Keys - {ExitKey};
    assert BASE_KEYS == BASE_KEYS + {ExitKey} - {ExitKey};
    if row.Keys == BASE_KEYS {
      assert NormalizeExit(row) == Ok(None) == NormalizeExit(other);
      RowsNormalizeAlike(row, other);
    }
  }

  lemma RowsNormalizeAlike(a: map<Key, Json>, b: map<Key, Json>)
    requires BASE_KEYS <= a.Keys && BASE_KEYS <= b.Keys
    requires forall f :: f in BASE_KEYS ==> a[f] == b[f]
    requires NormalizeExit(a) == NormalizeExit(b)
    ensures NormalizeRow(a) == NormalizeRow(b)
  {
    assert NormalizeLimits(a) == NormalizeLimits(b);
  }

  // ----- Spelling does not matter

  predicate IsNumberKey(k: Key) {
    || k.StateCommitment? || k.MaxBlocksPerBatch? || k.MaxTransactionsPerBlock? || k.MaxGasPerBlock? || k.MaxMemoryBytes?
    || k.PrefixBits? || k.SlotPrefix? || k.SourceKey? || k.RoomSlot? || k.RootSlot? || k.EpochSlot? || k.CountSlot?
    || k.CapacitySlot? || k.RecordsBaseSlot? || k.Kind? || k.BalanceSlot?
  }

  predicate IsBytesKey(k: Key) {
    || k.Address? || k.RuntimeCodeHash? || k.Caller? || k.Target? || k.Contract? || k.AdapterId? || k.AdapterVersion?
    || k.Source? || k.RoomContract? || k.QueueContract? || k.FallbackRecipient? || k.Asset? || k.Token?
  }

  /** The element field of an array field: call kinds are numbers, selectors are bytes, anything else is a row. */
  function ElementKey(k: Key): Key {
    if k.Kinds? then Kind else if k.Selectors? then Address else Unknown("row")
  }

  /**
   * Two values of one field that differ only in spelling: numbers of equal
   * value, bytes of equal letters whatever their case, and likewise inside
   * arrays and objects.
   */
  ghost predicate Alike(k: Key, a: Json, b: Json)
    decreases a
  {
    if IsNumberKey(k) then IntegerOf(a) == IntegerOf(b)
    else if IsBytesKey(k) then Lower(TextOf(a)) == Lower(TextOf(b))
    else
      match a
      case Array(items) =>
        b.Array? && |b.items| == |items| && forall i :: 0 <= i < |items| ==> Alike(ElementKey(k), items[i], b.items[i])
      case Object(fields) =>
        b.Object? && b.fields.Keys == fields.Keys && forall f :: f in fields ==> Alike(f, fields[f], b.fields[f])
      case _ => a == b
  }

  ghost predicate Agrees<T>(normalize: Json -> Result<T, PolicyError>, a: Json, b: Json) {
    normalize(a) == normalize(b)
  }

  lemma {:induction false} AllAgree<T>(normalize: Json -> Result<T, PolicyError>, a: seq<Json>, b: seq<Json>)
    requires |a| == |b| && forall i :: 0 <= i < |a| ==> Agrees(normalize, a[i], b[i])
    ensures NormalizeAll(normalize, a) == NormalizeAll(normalize, b)
  {
    if a != [] {
      AllAgree(normalize, a[..|a| - 1], b[..|b| - 1]);
      assert Agrees(normalize, a[|a| - 1], b[|b| - 1]);
    }
  }

  lemma ListsAgree<T>(normalize: Json -> Result<T, PolicyError>, k: Key, a: Json, b: Json)
    requires !IsNumberKey(k) && !IsBytesKey(k) && Alike(k, a, b)
    requires forall x, y :: Alike(ElementKey(k), x, y) ==> Agrees(normalize, x, y)
    ensures NormalizeList(normalize, a) == NormalizeList(normalize, b)
  {
    if a.Array? {
      forall i | 0 <= i < |a.items| ensures Agrees(normalize, a.items[i], b.items[i]) {
        assert Alike(ElementKey(k), a.items[i], b.items[i]);
      }
      AllAgree(normalize, a.items, b.items);
    }
  }

  predicate IsFlagKey(k: Key) {
    k.AllowContractCreation? || k.AllowSelfDestruct? || k.Writable?
  }

  /** What alikeness means for a field that holds one scalar. */
  predicate SameScalar(k: Key, a: Json, b: Json) {
    && (IsNumberKey(k) ==> IntegerOf(a) == IntegerOf(b))
    && (IsBytesKey(k) ==> Lower(TextOf(a)) == Lower(TextOf(b)))
    && (IsFlagKey(k) ==> Flag(a) == Flag(b))
  }

  predicate SameScalars(keys: set<Key>, a: map<Key, Json>, b: map<Key, Json>)
    requires keys <= a.Keys && keys <= b.Keys
  {
    forall f :: f in keys ==> SameScalar(f, a[f], b[f])
  }

  lemma FlagIsSame(k: Key, a: Json, b: Json)
    requires Alike(k, a, b) && !IsNumberKey(k) && !IsBytesKey(k)
    ensures Flag(a) == Flag(b)
  {
    if a.Bool? {
      assert a == b;
    } else {
      assert !b.Bool?;
    }
  }

  lemma ScalarsAreSame(k: Key, a: Json, b: Json)
    requires Alike(k, a, b)
    ensures SameScalar(k, a, b)
  {
    if IsNumberKey(k) {
      assert !IsBytesKey(k) && !IsFlagKey(k);
    } else if IsBytesKey(k) {
      assert !IsFlagKey(k);
    } else {
      FlagIsSame(k, a, b);
    }
  }

  lemma RowsAreAlike(a: Json, b: Json, keys: set<Key>)
    requires Alike(Unknown("row"), a, b)
    ensures a.Object? <==> b.Object?
    ensures a.Object? ==> a.fields.Keys == b.fields.Keys
    ensures Fields(a, keys).Ok? ==> SameScalars(keys, a.fields, b.fields)
  {
    if Fields(a, keys).Ok? {
      forall f | f in keys ensures SameScalar(f, a.fields[f], b.fields[f]) {
        ScalarsAreSame(f, a.fields[f], b.fields[f]);
      }
    }
  }

  lemma FieldIsAlike(a: Json, b: Json, f: Key)
    requires Alike(Unknown("row"), a, b) && a.Object? && f in a.fields
    ensures b.Object? && f in b.fields && Alike(f, a.fields[f], b.fields[f])
  {
  }

  lemma CodeRowsAgree(a: map<Key, Json>, b: map<Key, Json>)
    requires a.Keys == b.Keys == CODE_KEYS && SameScalars(CODE_KEYS, a, b)
    ensures NormalizeCode(Object(a)) == NormalizeCode(Object(b))
  {
  }

  lemma CodeAgrees(a: Json, b: Json)
    requires Alike(Unknown("row"), a, b)
    ensures Agrees(NormalizeCode, a, b)
  {
    RowsAreAlike(a, b, CODE_KEYS);
    if Fields(a, CODE_KEYS).Ok? {
      CodeRowsAgree(a.fields, b.fields);
    }
  }

  lemma CallRowsAgree(a: map<Key, Json>, b: map<Key, Json>)
    requires a.Keys == b.Keys == CALL_KEYS && SameScalars(CALL_KEYS, a, b)
    requires NormalizeList(NormalizeSelector, a[Selectors]) == NormalizeList(NormalizeSelector, b[Selectors])
    requires NormalizeList(NormalizeKind, a[Kinds]) == NormalizeList(NormalizeKind, b[Kinds])
    ensures NormalizeCall(Object(a)) == NormalizeCall(Object(b))
  {
  }

  lemma CallListsAgree(a: Json, b: Json)
    requires Fields(a, CALL_KEYS).Ok? && Fields(b, CALL_KEYS).Ok?
    ensures Alike(Unknown("row"), a, b) ==>
      && NormalizeList(NormalizeSelector, a.fields[Selectors]) == NormalizeList(NormalizeSelector, b.fields[Selectors])
      && NormalizeList(NormalizeKind, a.fields[Kinds]) == NormalizeList(NormalizeKind, b.fields[Kinds])
  {
    if Alike(Unknown("row"), a, b) {
      FieldIsAlike(a, b, Selectors);
      SelectorListsAgree(a.fields[Selectors], b.fields[Selectors]);
      FieldIsAlike(a, b, Kinds);
      KindListsAgree(a.fields[Kinds], b.fields[Kinds]);
    }
  }

  lemma SelectorListsAgree(a: Json, b: Json)
    requires Alike(Selectors, a, b)
    ensures NormalizeList(NormalizeSelector, a) == NormalizeList(NormalizeSelector, b)
  {
    forall x, y | Alike(ElementKey(Selectors), x, y) ensures Agrees(NormalizeSelector, x, y) {
      ScalarsAreSame(Address, x, y);
    }
    ListsAgree(NormalizeSelector, Selectors, a, b);
  }

  lemma KindListsAgree(a: Json, b: Json)
    requires Alike(Kinds, a, b)
    ensures NormalizeList(NormalizeKind, a) == NormalizeList(NormalizeKind, b)
  {
    forall x, y | Alike(ElementKey(Kinds), x, y) ensures Agrees(NormalizeKind, x, y) {
      ScalarsAreSame(Kind, x, y);
    }
    ListsAgree(NormalizeKind, Kinds, a, b);
  }

  lemma CallAgrees(a: Json, b: Json)
    requires Alike(Unknown("row"), a, b)
    ensures Agrees(NormalizeCall, a, b)
  {
    RowsAreAlike(a, b, CALL_KEYS);
    if Fields(a, CALL_KEYS).Ok? {
      CallListsAgree(a, b);
      CallRowsAgree(a.fields, b.fields);
    }
  }

  lemma StorageRowsAgree(a: map<Key, Json>, b: map<Key, Json>)
    requires a.Keys == b.Keys == STORAGE_KEYS && SameScalars(STORAGE_KEYS, a, b)
    ensures NormalizeStorage(Object(a)) == NormalizeStorage(Object(b))
  {
  }

  lemma StorageAgrees(a: Json, b: Json)
    requires Alike(Unknown("row"), a, b)
    ensures Agrees(NormalizeStorage, a, b)
  {
    RowsAreAlike(a, b, STORAGE_KEYS);
    if Fields(a, STORAGE_KEYS).Ok? {
      StorageRowsAgree(a.fields, b.fields);
    }
  }

  lemma ImportRowsAgree(a: map<Key, Json>, b: map<Key, Json>)
    requires a.Keys == b.Keys == IMPORT_KEYS && SameScalars(IMPORT_KEYS, a, b)
    ensures NormalizeImport(Object(a)) == NormalizeImport(Object(b))
  {
  }

  lemma ImportAgrees(a: Json, b: Json)
    requires Alike(Unknown("row"), a, b)
    ensures Agrees(NormalizeImport, a, b)
  {
    RowsAreAlike(a, b, IMPORT_KEYS);
    if Fields(a, IMPORT_KEYS).Ok? {
      ImportRowsAgree(a.fields, b.fields);
    }
  }

  lemma StructuresAreRows(k: Key, a: Json, b: Json)
    requires k in {ParticipantRegistry, ExitKey} && Alike(k, a, b)
    ensures Alike(Unknown("row"), a, b) && (a.Null? <==> b.Null?)
  {
  }

  lemma RegistryRowsAgree(a: map<Key, Json>, b: map<Key, Json>)
    requires a.Keys == b.Keys == REGISTRY_KEYS && SameScalars(REGISTRY_KEYS, a, b)
    ensures NormalizeRegistry(Object(a)) == NormalizeRegistry(Object(b))
  {
  }

  lemma RegistryAgrees(a: Json, b: Json)
    requires Alike(ParticipantRegistry, a, b)
    ensures NormalizeRegistry(a) == NormalizeRegistry(b)
  {
    StructuresAreRows(ParticipantRegistry, a, b);
    RowsAreAlike(a, b, REGISTRY_KEYS);
    if Fields(a, REGISTRY_KEYS).Ok? {
      RegistryRowsAgree(a.fields, b.fields);
    }
  }

  lemma AssetRowsAgree(a: map<Key, Json>, b: map<Key, Json>)
    requires a.Keys == b.Keys == ASSET_KEYS && SameScalars(ASSET_KEYS, a, b)
    ensures NormalizeAsset(Object(a)) == NormalizeAsset(Object(b))
  {
  }

  lemma AssetAgrees(a: Json, b: Json)
    requires Alike(Unknown("row"), a, b)
    ensures Agrees(NormalizeAsset, a, b)
  {
    RowsAreAlike(a, b, ASSET_KEYS);
    if Fields(a, ASSET_KEYS).Ok? {
      AssetRowsAgree(a.fields, b.fields);
    }
  }

  lemma ExitRowsAgree(a: map<Key, Json>, b: map<Key, Json>)
    requires ExitKey in a && ExitKey in b
    requires Fields(a[ExitKey], EXIT_KEYS).Ok? && Fields(b[ExitKey], EXIT_KEYS).Ok?
    requires SameScalars(EXIT_KEYS, a[ExitKey].fields, b[ExitKey].fields)
    requires NormalizeList(NormalizeAsset, a[ExitKey].fields[Assets]) == NormalizeList(NormalizeAsset, b[ExitKey].fields[Assets])
    ensures NormalizeExit(a) == NormalizeExit(b)
  {
  }

  lemma ExitListsAgree(a: Json, b: Json)
    requires Fields(a, EXIT_KEYS).Ok? && Fields(b, EXIT_KEYS).Ok?
    ensures Alike(Unknown("row"), a, b) ==>
      NormalizeList(NormalizeAsset, a.fields[Assets]) == NormalizeList(NormalizeAsset, b.fields[Assets])
  {
    if Alike(Unknown("row"), a, b) {
      FieldIsAlike(a, b, Assets);
      forall r, s | Alike(ElementKey(Assets), r, s) ensures Agrees(NormalizeAsset, r, s) {
        AssetAgrees(r, s);
      }
      ListsAgree(NormalizeAsset, Assets, a.fields[Assets], b.fields[Assets]);
    }
  }

  lemma ExitAgrees(a: map<Key, Json>, b: map<Key, Json>)
    requires ExitKey in a <==> ExitKey in b
    requires ExitKey in a ==> Alike(ExitKey, a[ExitKey], b[ExitKey])
    ensures NormalizeExit(a) == NormalizeExit(b)
  {
    if ExitKey in a {
      var x, y := a[ExitKey], b[ExitKey];
      StructuresAreRows(ExitKey, x, y);
      RowsAreAlike(x, y, EXIT_KEYS);
      if Fields(x, EXIT_KEYS).Ok? {
        ExitListsAgree(x, y);
        ExitRowsAgree(a, b);
      }
    }
  }

  lemma RowListsAgree<T>(normalize: Json -> Result<T, PolicyError>, k: Key, a: Json, b: Json)
    requires k in {Code, Calls, Storage, Imports}
    requires Alike(Unknown("row"), a, b) && a.Object? && k in a.fields
    requires forall r, s :: Alike(Unknown("row"), r, s) ==> Agrees(normalize, r, s)
    ensures b.Object? && k in b.fields
    ensures NormalizeList(normalize, a.fields[k]) == NormalizeList(normalize, b.fields[k])
  {
    FieldIsAlike(a, b, k);
    assert ElementKey(k) == Unknown("row");
    ListsAgree(normalize, k, a.fields[k], b.fields[k]);
  }

  lemma PolicyListsAgree(a: Json, b: Json)
    requires a.Object? && BASE_KEYS <= a.fields.Keys
    requires b.Object? && BASE_KEYS <= b.fields.Keys
    ensures Alike(Unknown("row"), a, b) ==>
      && NormalizeList(NormalizeCode, a.fields[Code]) == NormalizeList(NormalizeCode, b.fields[Code])
      && NormalizeList(NormalizeCall, a.fields[Calls]) == NormalizeList(NormalizeCall, b.fields[Calls])
      && NormalizeList(NormalizeStorage, a.fields[Storage]) == NormalizeList(NormalizeStorage, b.fields[Storage])
      && NormalizeList(NormalizeImport, a.fields[Imports]) == NormalizeList(NormalizeImport, b.fields[Imports])
  {
    if !Alike(Unknown("row"), a, b) {
      return;
    }
    forall r, s | Alike(Unknown("row"), r, s)
      ensures Agrees(NormalizeCode, r, s) && Agrees(NormalizeCall, r, s)
              && Agrees(NormalizeStorage, r, s) && Agrees(NormalizeImport, r, s)
    {
      CodeAgrees(r, s);
      CallAgrees(r, s);
      StorageAgrees(r, s);
      ImportAgrees(r, s);
    }
    RowListsAgree(NormalizeCode, Code, a, b);
    RowListsAgree(NormalizeCall, Calls, a, b);
    RowListsAgree(NormalizeStorage, Storage, a, b);
    RowListsAgree(NormalizeImport, Imports, a, b);
  }

  lemma LimitsAgree(a: map<Key, Json>, b: map<Key, Json>)
    requires LIMIT_KEYS <= a.Keys && LIMIT_KEYS <= b.Keys && SameScalars(LIMIT_KEYS, a, b)
    ensures NormalizeLimits(a) == NormalizeLimits(b)
  {
    assert SameScalar(AllowContractCreation, a[AllowContractCreation], b[AllowContractCreation]);
    assert SameScalar(AllowSelfDestruct, a[AllowSelfDestruct], b[AllowSelfDestruct]);
  }

  /** However its integers are spelled and its bytes are cased, a policy normalises to the same result. */
  lemma SpellingDoesNotMatter(a: Json, b: Json)
    requires Alike(Unknown("row"), a, b)
    ensures NormalizePolicy(a) == NormalizePolicy(b)
  {
    var keys := if a.Object? && ExitKey in a.fields then BASE_KEYS + {ExitKey} else BASE_KEYS;
    RowsAreAlike(a, b, keys);
    if Fields(a, keys).Ok? {
      PolicyListsAgree(a, b);
      FieldIsAlike(a, b, ParticipantRegistry);
      RegistryAgrees(a.fields[ParticipantRegistry], b.fields[ParticipantRegistry]);
      if ExitKey in a.fields {
        FieldIsAlike(a, b, ExitKey);
      }
      ExitAgrees(a.fields, b.fields);
      LimitsAgree(a.fields, b.fields);
    }
  }

  /** Two accepted policies are hashed over the same bytes exactly when they normalise to the same policy. */
  lemma PreimageIdentifiesAccepted(a: Json, b: Json)
    ensures NormalizePolicy(a).Ok? && NormalizePolicy(b).Ok? ==>
      (Encode(NormalizePolicy(a).value) == Encode(NormalizePolicy(b).value) <==> NormalizePolicy(a) == NormalizePolicy(b))
  {
    if NormalizePolicy(a).Ok? && NormalizePolicy(b).Ok? {
      AcceptedIsCanonical(a);
      AcceptedIsCanonical(b);
      PolicyDecoding.EncodeIsInjective(NormalizePolicy(a).value, NormalizePolicy(b).value);
    }
  }
}
