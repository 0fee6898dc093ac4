/**
 * The byte string an execution policy is hashed over: nested counted lists, a
 * registry behind a tag byte, and an exit binding that adds a tail only when it
 * is present. A reader of that string shows it says everything.
 */
module PolicyEncoding {
  import opened Wrappers
  import opened HexText
  import opened HexNumbers

  datatype CodeEntry = CodeEntry(address: string, runtimeCodeHash: string)

  datatype CallRule = CallRule(caller: string, target: string, selectors: seq<string>, kinds: seq<nat>)

  datatype StorageRule = StorageRule(contract: string, slotPrefix: string, prefixBits: nat, writable: bool)

  datatype ImportRule = ImportRule(
    adapterId: string, adapterVersion: string, source: string, sourceKey: string, roomContract: string, roomSlot: string)

  datatype Registry = Registry(
    contract: string, rootSlot: string, epochSlot: string, countSlot: string, capacitySlot: string)

  datatype ExitAsset = ExitAsset(asset: string, kind: nat, token: string, balanceSlot: string)

  datatype Exit = Exit(
    queueContract: string, countSlot: string, recordsBaseSlot: string, assets: seq<ExitAsset>, fallbackRecipient: string)

  datatype Limits = Limits(
    stateCommitment: nat, maxBlocks: nat, maxTransactions: nat, maxGas: nat, maxMemory: nat,
    allowCreation: bool, allowSelfDestruct: bool)

  datatype Policy = Policy(
    limits: Limits,
    code: seq<CodeEntry>,
    calls: seq<CallRule>,
    storage: seq<StorageRule>,
    imports: seq<ImportRule>,
    registry: Option<Registry>,
    exit: Option<Exit>)

  const MAX_SAFE_INTEGER := 0x1F_FFFF_FFFF_FFFF

  /** The longest array JavaScript can hold. */
  const MAX_ARRAY_LENGTH := 0xFFFF_FFFF

  const MAX_CALL_KIND := 2
  const MAX_PREFIX_BITS := 256

  // ----- Canonical policies

  predicate IsBytes(s: string, bytes: nat) {
    |s| == 2 + 2 * bytes && IsLowerHexText(s)
  }

  predicate IsAddress(s: string) {
    IsBytes(s, 20)
  }

  predicate IsWord(s: string) {
    IsBytes(s, 32)
  }

  predicate IsSelector(s: string) {
    IsBytes(s, 4)
  }

  predicate CanonicalCode(c: CodeEntry) {
    IsAddress(c.address) && IsWord(c.runtimeCodeHash)
  }

  predicate CanonicalCall(c: CallRule) {
    && IsAddress(c.caller) && IsAddress(c.target)
    && |c.selectors| <= MAX_ARRAY_LENGTH && (forall i :: 0 <= i < |c.selectors| ==> IsSelector(c.selectors[i]))
    && |c.kinds| <= MAX_ARRAY_LENGTH && (forall i :: 0 <= i < |c.kinds| ==> c.kinds[i] <= MAX_CALL_KIND)
  }

  predicate CanonicalStorage(s: StorageRule) {
    IsAddress(s.contract) && IsWord(s.slotPrefix) && s.prefixBits <= MAX_PREFIX_BITS
  }

  predicate CanonicalImport(i: ImportRule) {
    && IsWord(i.adapterId) && IsWord(i.adapterVersion) && IsAddress(i.source)
    && IsWord(i.sourceKey) && IsAddress(i.roomContract) && IsWord(i.roomSlot)
  }

  predicate CanonicalRegistry(r: Registry) {
    && IsAddress(r.contract) && IsWord(r.rootSlot) && IsWord(r.epochSlot)
    && IsWord(r.countSlot) && IsWord(r.capacitySlot)
  }

  predicate CanonicalAsset(a: ExitAsset) {
    IsAddress(a.asset) && a.kind < 0x100 && IsAddress(a.token) && IsWord(a.balanceSlot)
  }

  predicate CanonicalExit(e: Exit) {
    && IsAddress(e.queueContract) && IsWord(e.countSlot) && IsWord(e.recordsBaseSlot)
    && |e.assets| <= MAX_ARRAY_LENGTH && (forall i :: 0 <= i < |e.assets| ==> CanonicalAsset(e.assets[i]))
    && IsAddress(e.fallbackRecipient)
  }

  predicate CanonicalLimits(l: Limits) {
    && l.stateCommitment < 0x100
    && l.maxBlocks <= MAX_SAFE_INTEGER && l.maxTransactions <= MAX_SAFE_INTEGER
    && l.maxGas <= MAX_SAFE_INTEGER && l.maxMemory <= MAX_SAFE_INTEGER
  }

  predicate Canonical(p: Policy) {
    && CanonicalLimits(p.limits)
    && |p.code| <= MAX_ARRAY_LENGTH && (forall i :: 0 <= i < |p.code| ==> CanonicalCode(p.code[i]))
    && |p.calls| <= MAX_ARRAY_LENGTH && (forall i :: 0 <= i < |p.calls| ==> CanonicalCall(p.calls[i]))
    && |p.storage| <= MAX_ARRAY_LENGTH && (forall i :: 0 <= i < |p.storage| ==> CanonicalStorage(p.storage[i]))
    && |p.imports| <= MAX_ARRAY_LENGTH && (forall i :: 0 <= i < |p.imports| ==> CanonicalImport(p.imports[i]))
    && (p.registry.Some? ==> CanonicalRegistry(p.registry.value))
    && (p.exit.Some? ==> CanonicalExit(p.exit.value))
  }

  // ----- The chunks and their concatenation

  /** The bytes of `zkdeal/execution-policy/v5`. */
  const DOMAIN := "0x" + ("7a6b6465616c2f6578" + "65637574696f6e2d70" + "6f6c6963792f7635")

  function FlagChunk(flag: bool): string {
    HexUint(if flag then 1 else 0, 1)
  }

  function LimitChunks(l: Limits): seq<string> {
    [DOMAIN, HexUint(l.stateCommitment, 1), HexUint(l.maxBlocks, 8), HexUint(l.maxTransactions, 8),
     HexUint(l.maxGas, 8), HexUint(l.maxMemory, 8), FlagChunk(l.allowCreation), FlagChunk(l.allowSelfDestruct)]
  }

  function ItemChunks<T>(encode: T -> seq<string>, items: seq<T>): seq<string> {
    if items == [] then []
    else ItemChunks(encode, items[..|items| - 1]) + encode(items[|items| - 1])
  }

  function ListChunks<T>(encode: T -> seq<string>, items: seq<T>): seq<string> {
    [HexUint(|items|, 8)] + ItemChunks(encode, items)
  }

  function CodeChunks(c: CodeEntry): seq<string> {
    [c.address, c.runtimeCodeHash]
  }

  function SelectorChunks(s: string): seq<string> {
    [s]
  }

  function KindChunks(kind: nat): seq<string> {
    [HexUint(kind, 1)]
  }

  function CallChunks(c: CallRule): seq<string> {
    [c.caller, c.target] + ListChunks(SelectorChunks, c.selectors) + ListChunks(KindChunks, c.kinds)
  }

  function StorageChunks(s: StorageRule): seq<string> {
    [s.contract, s.slotPrefix, HexUint(s.prefixBits, 2), FlagChunk(s.writable)]
  }

  function ImportChunks(i: ImportRule): seq<string> {
    [i.adapterId, i.adapterVersion, i.source, i.sourceKey, i.roomContract, i.roomSlot]
  }

  function RegistryChunks(r: Option<Registry>): seq<string> {
    if r.Some? then
      [HexUint(1, 1), r.value.contract, r.value.rootSlot, r.value.epochSlot, r.value.countSlot, r.value.capacitySlot]
    else [HexUint(0, 1)]
  }

  function AssetChunks(a: ExitAsset): seq<string> {
    [a.asset, HexUint(a.kind, 1), a.token, a.balanceSlot]
  }

  /** A missing binding adds nothing, not even a zero byte. */
  function ExitChunks(e: Option<Exit>): seq<string> {
    if e.Some? then
      [HexUint(1, 1), e.value.queueContract, e.value.countSlot, e.value.recordsBaseSlot]
      + ListChunks(AssetChunks, e.value.assets) + [e.value.fallbackRecipient]
    else []
  }

  /** Everything before the exit binding. */
  function BodyChunks(p: Policy): seq<string> {
    LimitChunks(p.limits) + ListChunks(CodeChunks, p.code) + ListChunks(CallChunks, p.calls)
    + ListChunks(StorageChunks, p.storage) + ListChunks(ImportChunks, p.imports) + RegistryChunks(p.registry)
  }

  function PolicyChunks(p: Policy): seq<string> {
    BodyChunks(p) + ExitChunks(p.exit)
  }

  /** A chunk without its `0x`. */
  function Digits(chunk: string): string {
    if |chunk| < 2 then chunk else chunk[2..]
  }

  /** The chunks' digits in front of `rest`. */
  function Join(chunks: seq<string>, rest: string): string {
    if chunks == [] then rest else Digits(chunks[0]) + Join(chunks[1..], rest)
  }

  /** The preimage of the policy hash, as digits. */
  function Encode(p: Policy): string {
    Join(PolicyChunks(p), "")
  }

  lemma PushItem<T>(base: seq<string>, encode: T -> seq<string>, items: seq<T>, i: nat)
    requires i < |items|
    ensures base + ItemChunks(encode, items[..i]) + encode(items[i]) == base + ItemChunks(encode, items[..i + 1])
  {
    assert items[..i + 1][..i] == items[..i];
  }

  lemma AllItems<T>(base: seq<string>, encode: T -> seq<string>, items: seq<T>)
    ensures items[..|items|] == items
    ensures base + [HexUint(|items|, 8)] + ItemChunks(encode, items) == base + ListChunks(encode, items)
  {
    Reassociate(base, [HexUint(|items|, 8)], ItemChunks(encode, items));
  }

  lemma Reassociate<T>(a: seq<T>, b: seq<T>, c: seq<T>)
    ensures a + b + c == a + (b + c)
  {
  }

  method CollectCode(items: seq<CodeEntry>, before: seq<string>) returns (chunks: seq<string>)
    ensures chunks == before + ListChunks(CodeChunks, items)
  {
    chunks := before + [HexUint(|items|, 8)];
    ghost var base := chunks;
    for i := 0 to |items|
      invariant chunks == base + ItemChunks(CodeChunks, items[..i])
    {
      PushItem(base, CodeChunks, items, i);
      chunks := chunks + [items[i].address, items[i].runtimeCodeHash];
    }
    AllItems(before, CodeChunks, items);
  }

  method CollectSelectors(items: seq<string>, before: seq<string>) returns (chunks: seq<string>)
    ensures chunks == before + ListChunks(SelectorChunks, items)
  {
    chunks := before + [HexUint(|items|, 8)];
    ghost var base := chunks;
    for i := 0 to |items|
      invariant chunks == base + ItemChunks(SelectorChunks, items[..i])
    {
      PushItem(base, SelectorChunks, items, i);
      chunks := chunks + [items[i]];
    }
    AllItems(before, SelectorChunks, items);
  }

  method CollectKinds(items: seq<nat>, before: seq<string>) returns (chunks: seq<string>)
    ensures chunks == before + ListChunks(KindChunks, items)
  {
    chunks := before + [HexUint(|items|, 8)];
    ghost var base := chunks;
    for i := 0 to |items|
      invariant chunks == base + ItemChunks(KindChunks, items[..i])
    {
      PushItem(base, KindChunks, items, i);
      chunks := chunks + [HexUint(items[i], 1)];
    }
    AllItems(before, KindChunks, items);
  }

  lemma Regroup<T>(a: seq<T>, b: seq<T>, c: seq<T>, d: seq<T>)
    ensures a + b + c + d == a + (b + c + d)
  {
  }

  method CollectCall(c: CallRule, before: seq<string>) returns (chunks: seq<string>)
    ensures chunks == before + CallChunks(c)
  {
    chunks := before + [c.caller, c.target];
    chunks := CollectSelectors(c.selectors, chunks);
    chunks := CollectKinds(c.kinds, chunks);
    Regroup(before, [c.caller, c.target], ListChunks(SelectorChunks, c.selectors), ListChunks(KindChunks, c.kinds));
  }

  method CollectCalls(items: seq<CallRule>, before: seq<string>) returns (chunks: seq<string>)
    ensures chunks == before + ListChunks(CallChunks, items)
  {
    chunks := before + [HexUint(|items|, 8)];
    ghost var base := chunks;
    for i := 0 to |items|
      invariant chunks == base + ItemChunks(CallChunks, items[..i])
    {
      PushItem(base, CallChunks, items, i);
      chunks := CollectCall(items[i], chunks);
    }
    AllItems(before, CallChunks, items);
  }

  method CollectStorage(items: seq<StorageRule>, before: seq<string>) returns (chunks: seq<string>)
    ensures chunks == before + ListChunks(StorageChunks, items)
  {
    chunks := before + [HexUint(|items|, 8)];
    ghost var base := chunks;
    for i := 0 to |items|
      invariant chunks == base + ItemChunks(StorageChunks, items[..i])
    {
      PushItem(base, StorageChunks, items, i);
      var item := items[i];
      chunks := chunks + [item.contract, item.slotPrefix, HexUint(item.prefixBits, 2), FlagChunk(item.writable)];
    }
    AllItems(before, StorageChunks, items);
  }

  method CollectImports(items: seq<ImportRule>, before: seq<string>) returns (chunks: seq<string>)
    ensures chunks == before + ListChunks(ImportChunks, items)
  {
    chunks := before + [HexUint(|items|, 8)];
    ghost var base := chunks;
    for i := 0 to |items|
      invariant chunks == base + ItemChunks(ImportChunks, items[..i])
    {
      PushItem(base, ImportChunks, items, i);
      var item := items[i];
      chunks := chunks + [item.adapterId, item.adapterVersion, item.source, item.sourceKey,
                          item.roomContract, item.roomSlot];
    }
    AllItems(before, ImportChunks, items);
  }

  method CollectAssets(items: seq<ExitAsset>, before: seq<string>) returns (chunks: seq<string>)
    ensures chunks == before + ListChunks(AssetChunks, items)
  {
    chunks := before + [HexUint(|items|, 8)];
    ghost var base := chunks;
    for i := 0 to |items|
      invariant chunks == base + ItemChunks(AssetChunks, items[..i])
    {
      PushItem(base, AssetChunks, items, i);
      var item := items[i];
      chunks := chunks + [item.asset, HexUint(item.kind, 1), item.token, item.balanceSlot];
    }
    AllItems(before, AssetChunks, items);
  }

  method CollectExit(e: Exit, before: seq<string>) returns (chunks: seq<string>)
    ensures chunks == before + ExitChunks(Some(e))
  {
    chunks := before + [HexUint(1, 1), e.queueContract, e.countSlot, e.recordsBaseSlot];
    chunks := CollectAssets(e.assets, chunks);
    chunks := chunks + [e.fallbackRecipient];
  }

  /** Pushing chunk after chunk, one loop inside the other, collects the encoding. */
  method CollectChunks(p: Policy) returns (chunks: seq<string>)
    ensures chunks == PolicyChunks(p)
  {
    chunks := LimitChunks(p.limits);
    chunks := CollectCode(p.code, chunks);
    chunks := CollectCalls(p.calls, chunks);
    chunks := CollectStorage(p.storage, chunks);
    chunks := CollectImports(p.imports, chunks);
    if p.registry.Some? {
      var r := p.registry.value;
      chunks := chunks + [HexUint(1, 1), r.contract, r.rootSlot, r.epochSlot, r.countSlot, r.capacitySlot];
    } else {
      chunks := chunks + [HexUint(0, 1)];
    }
    assert chunks == BodyChunks(p);
    if p.exit.Some? {
      chunks := CollectExit(p.exit.value, chunks);
    }
  }
}
