/** Room names: readable suffixes, a counted fallback, and the creation step that keeps every name distinct. */
module RoomNames {
  import opened Wrappers
  import opened HexText

  const MAXIMUM_LENGTH := 80
  const MINIMUM_LENGTH := 3
  const DRAWS := 32

  /** The characters JavaScript trims. */
  predicate IsSpace(c: char) {
    || '\t' <= c <= '\r' || c == ' ' || c == '\U{00A0}' || c == '\U{1680}' || '\U{2000}' <= c <= '\U{200A}'
    || c == '\U{2028}' || c == '\U{2029}' || c == '\U{202F}' || c == '\U{205F}' || c == '\U{3000}' || c == '\U{FEFF}'
  }

  function TrimEnd(s: string): (r: string)
    ensures |r| <= |s| && r == s[..|r|] && (r != "" ==> !IsSpace(r[|r| - 1]))
  {
    if s != "" && IsSpace(s[|s| - 1]) then TrimEnd(s[..|s| - 1]) else s
  }

  function TrimStart(s: string): (r: string)
    ensures |r| <= |s| && r == s[|s| - |r|..] && (r != "" ==> !IsSpace(r[0]))
  {
    if s != "" && IsSpace(s[0]) then TrimStart(s[1..]) else s
  }

  function Trim(s: string): string {
    TrimEnd(TrimStart(s))
  }

  function Prefix(s: string, n: nat): string {
    if |s| <= n then s else s[..n]
  }

  function Tail(suffix: string): string {
    " (" + suffix + ")"
  }

  /** The base gives way to the suffix, never the other way round. */
  function WithRoomSuffix(base: string, suffix: string): (name: string)
    ensures |name| >= |Tail(suffix)| && name[|name| - |Tail(suffix)|..] == Tail(suffix)
    ensures |Tail(suffix)| < MAXIMUM_LENGTH ==> |name| <= MAXIMUM_LENGTH
  {
    var room := MAXIMUM_LENGTH - |Tail(suffix)|;
    var head := if |base| > room then TrimEnd(Prefix(base, if room > 1 then room else 1)) else base;
    head + Tail(suffix)
  }

  /** The base is kept whole where both fit, and otherwise loses only its end, and the spaces before the cut. */
  lemma SuffixKeepsBase(base: string, suffix: string)
    requires |Tail(suffix)| < MAXIMUM_LENGTH
    ensures |base| + |Tail(suffix)| <= MAXIMUM_LENGTH ==> WithRoomSuffix(base, suffix) == base + " (" + suffix + ")"
    ensures |base| + |Tail(suffix)| > MAXIMUM_LENGTH ==>
              var cut := MAXIMUM_LENGTH - |Tail(suffix)|;
              exists kept: nat :: kept <= cut && WithRoomSuffix(base, suffix) == base[..kept] + " (" + suffix + ")"
                && (forall i :: kept <= i < cut ==> IsSpace(base[i])) && (kept > 0 ==> !IsSpace(base[kept - 1]))
  {
    var cut := MAXIMUM_LENGTH - |Tail(suffix)|;
    if |base| > cut {
      var head := TrimEnd(base[..cut]);
      TrimsSpaces(base[..cut]);
      assert head == base[..|head|];
      assert head + " (" + suffix + ")" == head + Tail(suffix);
      assert WithRoomSuffix(base, suffix) == base[..|head|] + " (" + suffix + ")";
    } else {
      assert base + " (" + suffix + ")" == base + Tail(suffix);
    }
  }

  lemma {:induction false} TrimsSpaces(s: string)
    ensures forall i :: |TrimEnd(s)| <= i < |s| ==> IsSpace(s[i])
  {
    if s != "" && IsSpace(s[|s| - 1]) {
      TrimsSpaces(s[..|s| - 1]);
    }
  }

  lemma {:induction false} TrimsSpacesBefore(s: string)
    ensures forall i :: 0 <= i < |s| - |TrimStart(s)| ==> IsSpace(s[i])
  {
    if s != "" && IsSpace(s[0]) {
      TrimsSpacesBefore(s[1..]);
      assert forall i :: 1 <= i < |s| ==> s[i] == s[1..][i - 1];
    }
  }

  lemma SliceOfRest(s: string, from: nat, n: nat)
    requires from + n <= |s|
    ensures s[from..][..n] == s[from..from + n]
  {
  }

  /** Trimming takes away the spaces at both ends and nothing else. */
  lemma TrimIsExact(s: string) returns (from: nat, to: nat)
    ensures from <= to <= |s| && Trim(s) == s[from..to]
    ensures forall i :: 0 <= i < from || to <= i < |s| ==> IsSpace(s[i])
    ensures Trim(s) != "" ==> !IsSpace(Trim(s)[0]) && !IsSpace(Trim(s)[|Trim(s)| - 1])
  {
    var rest := TrimStart(s);
    TrimsSpacesBefore(s);
    TrimsSpaces(rest);
    from := |s| - |rest|;
    to := from + |TrimEnd(rest)|;
    SliceOfRest(s, from, |TrimEnd(rest)|);
    forall i | to <= i < |s| ensures IsSpace(s[i]) {
      assert s[i] == rest[i - from];
    }
  }

  // ----- Counted suffixes

  function DecimalText(n: nat): (s: string)
    ensures s != "" && forall i :: 0 <= i < |s| ==> IsDigit(s[i])
  {
    if n < 10 then [('0' as int + n) as char] else DecimalText(n / 10) + [('0' as int + n % 10) as char]
  }

  lemma {:induction false} DecimalReadsBack(n: nat)
    ensures DecimalValue(DecimalText(n)) == n
  {
    var s := DecimalText(n);
    if n >= 10 {
      DecimalReadsBack(n / 10);
      assert s[..|s| - 1] == DecimalText(n / 10);
    } else {
      assert s[..|s| - 1] == "";
    }
  }

  function CountedSuffix(index: nat): string {
    "room-" + DecimalText(index)
  }

  function Counted(base: string, index: nat): string {
    WithRoomSuffix(base, CountedSuffix(index))
  }

  predicate NoSpace(s: string) {
    forall i :: 0 <= i < |s| ==> s[i] != ' '
  }

  /** A tail's only space is its first character. */
  lemma InsideIsNotSpace(name: string, suffix: string, m: nat)
    requires NoSpace(suffix) && 1 <= m < |Tail(suffix)| <= |name| && name[|name| - |Tail(suffix)|..] == Tail(suffix)
    ensures name[|name| - m] != ' '
  {
    var n := |Tail(suffix)|;
    assert name[|name| - m] == name[|name| - n..][n - m] == Tail(suffix)[n - m];
    if 2 <= n - m && n - m < n - 1 {
      assert Tail(suffix)[n - m] == suffix[n - m - 2];
    }
  }

  /** So no tail is a proper ending of another. */
  lemma TailsLineUp(name: string, shorter: string, longer: string)
    requires NoSpace(longer) && |shorter| <= |longer| && |name| >= |Tail(longer)|
    requires name[|name| - |Tail(shorter)|..] == Tail(shorter) && name[|name| - |Tail(longer)|..] == Tail(longer)
    ensures shorter == longer
  {
    var m := |Tail(shorter)|;
    assert name[|name| - m] == Tail(shorter)[0];
    if m < |Tail(longer)| {
      InsideIsNotSpace(name, longer, m);
    } else {
      assert shorter == Tail(shorter)[2..m - 1] && longer == Tail(longer)[2..m - 1];
    }
  }

  /** Whatever happened to the bases, names with suffixes free of spaces tell the suffixes apart. */
  lemma SuffixIsReadable(a: string, b: string, suffixA: string, suffixB: string)
    requires NoSpace(suffixA) && NoSpace(suffixB)
    requires WithRoomSuffix(a, suffixA) == WithRoomSuffix(b, suffixB)
    ensures suffixA == suffixB
  {
    if |suffixA| <= |suffixB| {
      TailsLineUp(WithRoomSuffix(a, suffixA), suffixA, suffixB);
    } else {
      TailsLineUp(WithRoomSuffix(b, suffixB), suffixB, suffixA);
    }
  }

  lemma CountedHasNoSpace(index: nat)
    ensures NoSpace(CountedSuffix(index))
  {
    var s := CountedSuffix(index);
    forall i | 0 <= i < |s| ensures s[i] != ' ' {
      if i >= 5 {
        assert s[i] == DecimalText(index)[i - 5];
        assert IsDigit(DecimalText(index)[i - 5]);
      }
    }
  }

  /** Counted names differ whenever their indices do, even after trimming. */
  lemma CountedIsInjective(a: string, b: string, i: nat, j: nat)
    requires Counted(a, i) == Counted(b, j)
    ensures i == j
  {
    CountedHasNoSpace(i);
    CountedHasNoSpace(j);
    SuffixIsReadable(a, b, CountedSuffix(i), CountedSuffix(j));
    assert DecimalText(i) == CountedSuffix(i)[5..] && DecimalText(j) == CountedSuffix(j)[5..];
    DecimalReadsBack(i);
    DecimalReadsBack(j);
  }

  // ----- A name nobody has

  /** The taken names that the counted search has not run into yet. */
  ghost function Unmet(base: string, taken: set<string>, index: nat): set<string> {
    set name | name in taken && forall i :: 2 <= i < index ==> name != Counted(base, i)
  }

  lemma OneFewer(base: string, taken: set<string>, index: nat)
    requires index >= 2 && Counted(base, index) in taken
    ensures |Unmet(base, taken, index + 1)| < |Unmet(base, taken, index)|
  {
    var name := Counted(base, index);
    forall i | 2 <= i < index ensures name != Counted(base, i) {
      if name == Counted(base, i) {
        CountedIsInjective(base, base, index, i);
      }
    }
    assert name in Unmet(base, taken, index);
    assert Unmet(base, taken, index + 1) == Unmet(base, taken, index) - {name};
  }

  /** The first counted name that is free. */
  function FirstCounted(base: string, taken: set<string>, index: nat): (name: string)
    requires index >= 2
    ensures name !in taken
    ensures exists j :: j >= index && name == Counted(base, j) && forall i :: index <= i < j ==> Counted(base, i) in taken
    decreases |Unmet(base, taken, index)|
  {
    if Counted(base, index) !in taken then Counted(base, index)
    else
      OneFewer(base, taken, index);
      FirstCounted(base, taken, index + 1)
  }

  /** The first free drawn name, or the first free counted one when every draw was taken. */
  function UniqueFrom(base: string, taken: set<string>, draws: nat -> string, attempt: nat): (name: string)
    ensures name !in taken
    decreases DRAWS - attempt
  {
    if attempt >= DRAWS then FirstCounted(base, taken, 2)
    else if WithRoomSuffix(base, draws(attempt)) !in taken then WithRoomSuffix(base, draws(attempt))
    else UniqueFrom(base, taken, draws, attempt + 1)
  }

  /** One of the two words' names, as drawn. */
  function Drawn(base: string, draws: nat -> string, k: nat): string {
    WithRoomSuffix(base, draws(k))
  }

  /** This is the first free of the 32 names drawn, or with none free the first free counted from two. */
  ghost predicate FirstFree(base: string, taken: set<string>, draws: nat -> string, name: string) {
    || (exists k: nat :: k < 32 && name == Drawn(base, draws, k) && name !in taken
                         && forall j: nat :: j < k ==> Drawn(base, draws, j) in taken)
    || (&& (forall j: nat :: j < 32 ==> Drawn(base, draws, j) in taken)
        && exists n: nat :: n >= 2 && name == Counted(base, n) && name !in taken
                            && forall i :: 2 <= i < n ==> Counted(base, i) in taken)
  }

  lemma {:induction false} FirstFreeFrom(base: string, taken: set<string>, draws: nat -> string, attempt: nat)
    requires attempt <= 32 && forall j: nat :: j < attempt ==> Drawn(base, draws, j) in taken
    ensures FirstFree(base, taken, draws, UniqueFrom(base, taken, draws, attempt))
    decreases 32 - attempt
  {
    if attempt < 32 {
      if Drawn(base, draws, attempt) in taken {
        FirstFreeFrom(base, taken, draws, attempt + 1);
      }
    } else {
      var name := FirstCounted(base, taken, 2);
      var n :| n >= 2 && name == Counted(base, n) && forall i :: 2 <= i < n ==> Counted(base, i) in taken;
    }
  }

  method UniqueRoomName(base: string, taken: set<string>, draws: nat -> string) returns (name: string)
    ensures name == UniqueFrom(base, taken, draws, 0)
    ensures FirstFree(base, taken, draws, name)
  {
    FirstFreeFrom(base, taken, draws, 0);
    for attempt := 0 to DRAWS
      invariant UniqueFrom(base, taken, draws, attempt) == UniqueFrom(base, taken, draws, 0)
    {
      var candidate := WithRoomSuffix(base, draws(attempt));
      if candidate !in taken {
        return candidate;
      }
    }
    var index: nat := 2;
    while true
      invariant index >= 2
      invariant FirstCounted(base, taken, index) == UniqueFrom(base, taken, draws, 0)
      decreases |Unmet(base, taken, index)|
    {
      var candidate := Counted(base, index);
      if candidate !in taken {
        return candidate;
      }
      OneFewer(base, taken, index);
      index := index + 1;
    }
  }

  // ----- Creating rooms

  datatype CreateError = BadLength | NameTaken

  datatype Request = Request(name: Option<string>, keepName: bool, draws: nat -> string)

  function NamesOf(names: seq<string>): set<string> {
    set n | n in names
  }

  function NameFor(names: seq<string>, r: Request): Result<string, CreateError> {
    var base := if r.name.Some? then Trim(r.name.value) else "";
    if |base| < MINIMUM_LENGTH || |base| > MAXIMUM_LENGTH then Err(BadLength)
    else if !r.keepName then Ok(UniqueFrom(base, NamesOf(names), r.draws, 0))
    else if base in names then Err(NameTaken)
    else Ok(base)
  }

  /**
   * A room is named exactly when its trimmed name is between 3 and 80
   * characters and, if it must be kept, free; a kept name is the trimmed one,
   * any other the first free name built on it.
   */
  lemma NamedIff(names: seq<string>, r: Request)
    ensures var base := if r.name.Some? then Trim(r.name.value) else "";
            && (NameFor(names, r).Ok? <==> 3 <= |base| <= 80 && (r.keepName ==> forall n :: n in names ==> n != base))
            && (NameFor(names, r).Ok? ==>
                  if r.keepName then NameFor(names, r).value == base
                  else FirstFree(base, NamesOf(names), r.draws, NameFor(names, r).value))
  {
    FirstFreeFrom(if r.name.Some? then Trim(r.name.value) else "", NamesOf(names), r.draws, 0);
  }

  predicate Distinct(names: seq<string>) {
    forall i, j :: 0 <= i < j < |names| ==> names[i] != names[j]
  }

  lemma NamedIsFree(names: seq<string>, r: Request)
    requires NameFor(names, r).Ok?
    ensures NameFor(names, r).value !in names
  {
    assert forall n :: n in names <==> n in NamesOf(names);
  }

  lemma PushIsDistinct(names: seq<string>, name: string)
    requires Distinct(names) && name !in names
    ensures Distinct(names + [name])
  {
  }

  class Rooms {
    var names: seq<string>

    constructor ()
      ensures names == []
    {
      names := [];
    }

    method CreateRoom(r: Request) returns (name: Result<string, CreateError>)
      modifies this
      ensures name == NameFor(old(names), r)
      ensures names == if name.Ok? then old(names) + [name.value] else old(names)
      ensures Distinct(old(names)) ==> Distinct(names)
    {
      var base := if r.name.Some? then Trim(r.name.value) else "";
      if |base| < MINIMUM_LENGTH || |base| > MAXIMUM_LENGTH {
        return Err(BadLength);
      }
      var taken := NamesOf(names);
      var chosen := base;
      if r.keepName {
        if base in taken {
          return Err(NameTaken);
        }
      } else {
        chosen := UniqueRoomName(base, taken, r.draws);
      }
      if Distinct(names) {
        NamedIsFree(names, r);
        PushIsDistinct(names, chosen);
      }
      names := names + [chosen];
      return Ok(chosen);
    }
  }

  function Created(requests: seq<Request>): seq<string> {
    if requests == [] then []
    else
      var names := Created(requests[..|requests| - 1]);
      var name := NameFor(names, requests[|requests| - 1]);
      if name.Ok? then names + [name.value] else names
  }

  /** Whatever is requested and drawn, no two rooms ever share a name. */
  lemma {:induction false} CreatedNamesAreDistinct(requests: seq<Request>)
    ensures Distinct(Created(requests))
  {
    if requests != [] {
      CreatedNamesAreDistinct(requests[..|requests| - 1]);
      var names := Created(requests[..|requests| - 1]);
      var name := NameFor(names, requests[|requests| - 1]);
      if name.Ok? {
        NamedIsFree(names, requests[|requests| - 1]);
        PushIsDistinct(names, name.value);
      }
    }
  }
}
