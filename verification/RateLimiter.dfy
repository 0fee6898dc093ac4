/** The bounded token-bucket limiter, over exact reals and in milliseconds. */
module RateLimiter {

  datatype Bucket = Bucket(tokens: real, updated: real)

  /** `order` is the map's insertion order, oldest first. */
  datatype Limiter = Limiter(buckets: map<string, Bucket>, order: seq<string>)

  datatype Config = Config(capacity: real, perSecond: real, maxKeys: int)

  datatype Call = Call(key: string, cost: real, now: real)

  const EMPTY := Limiter(map[], [])

  predicate ValidConfig(c: Config) {
    c.capacity > 0.0 && c.perSecond > 0.0
  }

  function Lesser(a: real, b: real): real {
    if a < b then a else b
  }

  /** Tokens after time has passed; a clock that went back refills nothing. */
  function Refilled(c: Config, b: Bucket, now: real): Bucket {
    var elapsed := if now - b.updated > 0.0 then (now - b.updated) / 1000.0 else 0.0;
    Bucket(Lesser(c.capacity, b.tokens + elapsed * c.perSecond), now)
  }

  /** Make room by dropping the key inserted longest ago. */
  function Evicted(c: Config, l: Limiter): Limiter {
    if |l.buckets| >= c.maxKeys && l.order != []
    then Limiter(l.buckets - {l.order[0]}, l.order[1..]) else l
  }

  /** The bucket the call is charged against, before it is. */
  function Opened(c: Config, l: Limiter, call: Call): Limiter {
    if call.key in l.buckets then
      l.(buckets := l.buckets[call.key := Refilled(c, l.buckets[call.key], call.now)])
    else
      var room := Evicted(c, l);
      Limiter(room.buckets[call.key := Bucket(c.capacity, call.now)], room.order + [call.key])
  }

  predicate Accepts(c: Config, l: Limiter, call: Call) {
    call.key in Opened(c, l, call).buckets && Opened(c, l, call).buckets[call.key].tokens >= call.cost
  }

  function Take(c: Config, l: Limiter, call: Call): Limiter {
    var ready := Opened(c, l, call);
    if Accepts(c, l, call) then
      var b := ready.buckets[call.key];
      ready.(buckets := ready.buckets[call.key := b.(tokens := b.tokens - call.cost)])
    else ready
  }

  function After(c: Config, l: Limiter, calls: seq<Call>): Limiter {
    if calls == [] then l else Take(c, After(c, l, calls[..|calls| - 1]), calls[|calls| - 1])
  }

  /** What these calls took for one key. */
  function Spent(c: Config, l: Limiter, calls: seq<Call>, key: string): real {
    if calls == [] then 0.0
    else
      var front, last := calls[..|calls| - 1], calls[|calls| - 1];
      Spent(c, l, front, key)
      + if last.key == key && Accepts(c, After(c, l, front), last) then last.cost else 0.0
  }

  class Buckets {
    var buckets: map<string, Bucket>
    var order: seq<string>
    const c: Config

    ghost function View(): Limiter
      reads this
    {
      Limiter(buckets, order)
    }

    constructor (c: Config)
      requires ValidConfig(c)
      ensures this.c == c && View() == EMPTY
    {
      this.c := c;
      buckets, order := map[], [];
    }

    method TakeTokens(key: string, cost: real, now: real) returns (ok: bool)
      modifies this
      ensures ok == Accepts(c, old(View()), Call(key, cost, now))
      ensures View() == Take(c, old(View()), Call(key, cost, now))
    {
      if key !in buckets {
        if |buckets| >= c.maxKeys && order != [] {
          buckets, order := buckets - {order[0]}, order[1..];
        }
        buckets := buckets[key := Bucket(c.capacity, now)];
        order := order + [key];
      } else {
        buckets := buckets[key := Refilled(c, buckets[key], now)];
      }
      var b := buckets[key];
      if b.tokens < cost {
        return false;
      }
      buckets := buckets[key := b.(tokens := b.tokens - cost)];
      return true;
    }
  }

  // ----- The map stays bounded

  ghost predicate Listed(l: Limiter) {
    && (forall k :: k in l.buckets <==> k in l.order)
    && (forall i, j :: 0 <= i < j < |l.order| ==> l.order[i] != l.order[j])
    && |l.buckets| == |l.order|
  }

  lemma EvictionMakesRoom(c: Config, l: Limiter)
    requires Listed(l) && c.maxKeys > 0 && |l.buckets| <= c.maxKeys
    ensures Listed(Evicted(c, l)) && |Evicted(c, l).buckets| < c.maxKeys
    ensures forall k :: k in Evicted(c, l).order ==> k in l.order
  {
    if |l.buckets| >= c.maxKeys {
      RemovalKeepsListed(l, Evicted(c, l));
    }
  }

  lemma RemovalKeepsListed(l: Limiter, room: Limiter)
    requires Listed(l) && l.order != []
    requires room == Limiter(l.buckets - {l.order[0]}, l.order[1..])
    ensures Listed(room) && |room.buckets| == |l.buckets| - 1
    ensures forall k :: k in room.order ==> k in l.order
  {
    var oldest := l.order[0];
    RestWithoutFirst(l.order);
    assert oldest in l.buckets;
    OneFewer(l.buckets, oldest);
    forall k ensures k in room.buckets <==> k in room.order {
      assert k in l.buckets <==> k in l.order;
    }
  }

  lemma RestWithoutFirst(order: seq<string>)
    requires order != [] && forall i, j :: 0 <= i < j < |order| ==> order[i] != order[j]
    ensures order[0] !in order[1..] && forall k :: k in order <==> k == order[0] || k in order[1..]
    ensures forall i, j :: 0 <= i < j < |order[1..]| ==> order[1..][i] != order[1..][j]
  {
    assert order == [order[0]] + order[1..];
  }

  lemma OneFewer(buckets: map<string, Bucket>, key: string)
    requires key in buckets
    ensures |buckets - {key}| == |buckets| - 1
  {
    assert (buckets - {key}).Keys == buckets.Keys - {key};
  }

  lemma InsertionKeepsListed(l: Limiter, key: string, b: Bucket)
    requires Listed(l) && key !in l.buckets
    ensures Listed(Limiter(l.buckets[key := b], l.order + [key]))
    ensures |l.buckets[key := b]| == |l.buckets| + 1
  {
    assert l.buckets[key := b].Keys == l.buckets.Keys + {key};
  }

  lemma UpdateKeepsListed(l: Limiter, key: string, b: Bucket)
    requires Listed(l) && key in l.buckets
    ensures Listed(l.(buckets := l.buckets[key := b])) && |l.buckets[key := b]| == |l.buckets|
  {
    assert l.buckets[key := b].Keys == l.buckets.Keys;
  }

  lemma TakeKeepsBound(c: Config, l: Limiter, call: Call)
    requires Listed(l) && c.maxKeys > 0 && |l.buckets| <= c.maxKeys
    ensures Listed(Take(c, l, call)) && |Take(c, l, call).buckets| <= c.maxKeys
  {
    var ready := Opened(c, l, call);
    if call.key in l.buckets {
      UpdateKeepsListed(l, call.key, Refilled(c, l.buckets[call.key], call.now));
    } else {
      EvictionMakesRoom(c, l);
      InsertionKeepsListed(Evicted(c, l), call.key, Bucket(c.capacity, call.now));
    }
    var b := ready.buckets[call.key];
    UpdateKeepsListed(ready, call.key, b.(tokens := b.tokens - call.cost));
  }

  /** However many distinct keys call, the map never holds more than its ceiling. */
  lemma {:induction false} MapIsBounded(c: Config, calls: seq<Call>)
    requires c.maxKeys > 0
    ensures Listed(After(c, EMPTY, calls)) && |After(c, EMPTY, calls).buckets| <= c.maxKeys
  {
    if calls != [] {
      MapIsBounded(c, calls[..|calls| - 1]);
      TakeKeepsBound(c, After(c, EMPTY, calls[..|calls| - 1]), calls[|calls| - 1]);
    }
  }

  // ----- The budget of one key

  predicate Rising(calls: seq<Call>) {
    forall i, j :: 0 <= i <= j < |calls| ==> calls[i].now <= calls[j].now
  }

  /** After the first call, the key is never evicted. */
  predicate Stays(c: Config, l: Limiter, calls: seq<Call>, key: string) {
    forall k :: 1 <= k <= |calls| ==> key in After(c, l, calls[..k]).buckets
  }

  /** What the sustained rate adds between two moments. */
  function Earned(c: Config, from: real, to: real): real {
    c.perSecond * (to - from) / 1000.0
  }

  lemma EarnedAdds(c: Config, x: real, y: real, z: real)
    ensures Earned(c, x, y) + Earned(c, y, z) == Earned(c, x, z)
  {
  }

  lemma EarnedGrows(c: Config, x: real, y: real, z: real)
    requires ValidConfig(c) && y <= z
    ensures Earned(c, x, y) <= Earned(c, x, z)
  {
    EarnedAdds(c, x, y, z);
    assert c.perSecond * (z - y) >= 0.0;
  }

  /** What has been spent and what is left never exceed the burst and what time has added. */
  predicate Budgeted(c: Config, l: Limiter, calls: seq<Call>, key: string, start: real) {
    var after := After(c, l, calls);
    && key in after.buckets
    && Spent(c, l, calls, key) + after.buckets[key].tokens <= c.capacity + Earned(c, start, after.buckets[key].updated)
  }

  lemma RefillIsEarned(c: Config, b: Bucket, now: real)
    requires ValidConfig(c) && b.updated <= now
    ensures Refilled(c, b, now).updated == now
    ensures Refilled(c, b, now).tokens <= b.tokens + Earned(c, b.updated, now)
  {
    assert (now - b.updated) / 1000.0 * c.perSecond == Earned(c, b.updated, now);
  }

  function Charge(c: Config, l: Limiter, call: Call, key: string): real {
    if call.key == key && Accepts(c, l, call) then call.cost else 0.0
  }

  /** One call, seen from a key whose bucket outlives it. */
  lemma TakeIsPaidFor(c: Config, l: Limiter, call: Call, key: string)
    requires ValidConfig(c) && key in l.buckets && key in Take(c, l, call).buckets && l.buckets[key].updated <= call.now
    ensures var before, after := l.buckets[key], Take(c, l, call).buckets[key];
            && before.updated <= after.updated <= call.now
            && Charge(c, l, call, key) + after.tokens <= before.tokens + Earned(c, before.updated, after.updated)
  {
    if call.key == key {
      RefillIsEarned(c, l.buckets[key], call.now);
    } else {
      assert Earned(c, l.buckets[key].updated, l.buckets[key].updated) == 0.0;
    }
  }

  lemma FirstCallBudgets(c: Config, l: Limiter, call: Call)
    requires ValidConfig(c)
    ensures Budgeted(c, l, [call], call.key, call.now)
    ensures After(c, l, [call]).buckets[call.key].updated == call.now
  {
    CallPush(c, l, [], call, call.key);
    assert [] + [call] == [call];
    OpenedIsFull(c, l, call);
    assert Earned(c, call.now, call.now) == 0.0;
  }

  lemma CallPush(c: Config, l: Limiter, front: seq<Call>, call: Call, key: string)
    ensures After(c, l, front + [call]) == Take(c, After(c, l, front), call)
    ensures Spent(c, l, front + [call], key) == Spent(c, l, front, key) + Charge(c, After(c, l, front), call, key)
  {
    assert (front + [call])[..|front|] == front;
  }

  /** A call starts from at most a full bucket, whatever went before. */
  lemma OpenedIsFull(c: Config, l: Limiter, call: Call)
    ensures var after := Take(c, l, call);
            && call.key in after.buckets && after.buckets[call.key].updated == call.now
            && Charge(c, l, call, call.key) + after.buckets[call.key].tokens <= c.capacity
  {
  }

  lemma CallKeepsBudget(c: Config, l: Limiter, front: seq<Call>, call: Call, key: string, start: real)
    requires ValidConfig(c) && Budgeted(c, l, front, key, start)
    requires After(c, l, front).buckets[key].updated <= call.now
    requires key in After(c, l, front + [call]).buckets
    ensures Budgeted(c, l, front + [call], key, start)
    ensures After(c, l, front + [call]).buckets[key].updated <= call.now
  {
    var before := After(c, l, front);
    CallPush(c, l, front, call, key);
    TakeIsPaidFor(c, before, call, key);
    EarnedAdds(c, start, before.buckets[key].updated, Take(c, before, call).buckets[key].updated);
  }

  lemma {:induction false} CallsKeepBudget(c: Config, l: Limiter, calls: seq<Call>)
    requires ValidConfig(c) && calls != [] && Rising(calls) && Stays(c, l, calls, calls[0].key)
    ensures Budgeted(c, l, calls, calls[0].key, calls[0].now)
    ensures After(c, l, calls).buckets[calls[0].key].updated <= calls[|calls| - 1].now
  {
    if |calls| == 1 {
      FirstCallBudgets(c, l, calls[0]);
      assert calls == [calls[0]];
    } else {
      var front, last := calls[..|calls| - 1], calls[|calls| - 1];
      forall k | 1 <= k <= |front| ensures calls[0].key in After(c, l, front[..k]).buckets {
        assert front[..k] == calls[..k];
      }
      CallsKeepBudget(c, l, front);
      assert calls == front + [last];
      assert calls[..|calls|] == calls;
      CallKeepsBudget(c, l, front, last, calls[0].key, calls[0].now);
    }
  }

  predicate NoDebt(l: Limiter) {
    forall k :: k in l.buckets ==> l.buckets[k].tokens >= 0.0
  }

  lemma TakeKeepsNoDebt(c: Config, l: Limiter, call: Call)
    requires ValidConfig(c) && NoDebt(l)
    ensures NoDebt(Take(c, l, call))
  {
    if call.key in l.buckets {
      var b := l.buckets[call.key];
      var elapsed := if call.now - b.updated > 0.0 then (call.now - b.updated) / 1000.0 else 0.0;
      assert elapsed * c.perSecond >= 0.0;
    }
  }

  lemma {:induction false} NeverInDebt(c: Config, l: Limiter, calls: seq<Call>)
    requires ValidConfig(c) && NoDebt(l)
    ensures NoDebt(After(c, l, calls))
  {
    if calls != [] {
      NeverInDebt(c, l, calls[..|calls| - 1]);
      TakeKeepsNoDebt(c, After(c, l, calls[..|calls| - 1]), calls[|calls| - 1]);
    }
  }

  /**
   * From any reachable state, on a clock that does not go back: what a key that
   * is not evicted takes from one of its calls to a later moment is at most the
   * burst plus the sustained rate over that time, whoever else calls meanwhile.
   */
  lemma AcceptedCostIsBounded(c: Config, past: seq<Call>, calls: seq<Call>)
    requires ValidConfig(c) && calls != [] && Rising(calls)
    requires Stays(c, After(c, EMPTY, past), calls, calls[0].key)
    ensures Spent(c, After(c, EMPTY, past), calls, calls[0].key)
            <= c.capacity + Earned(c, calls[0].now, calls[|calls| - 1].now)
  {
    var l, key := After(c, EMPTY, past), calls[0].key;
    CallsKeepBudget(c, l, calls);
    NeverInDebt(c, EMPTY, past);
    NeverInDebt(c, l, calls);
    EarnedGrows(c, calls[0].now, After(c, l, calls).buckets[key].updated, calls[|calls| - 1].now);
  }

  // ----- Exactly which calls are accepted

  /** What the calls from `k` on took for the key. */
  function SpentFrom(c: Config, l: Limiter, calls: seq<Call>, key: string, k: nat): real
    requires k <= |calls|
  {
    Spent(c, l, calls, key) - Spent(c, l, calls[..k], key)
  }

  /** Taking this much now would keep the window since call `k` within the burst and what time has added. */
  predicate WindowAllows(c: Config, l: Limiter, calls: seq<Call>, key: string, k: nat, cost: real, now: real)
    requires k < |calls|
  {
    SpentFrom(c, l, calls, key, k) + cost <= c.capacity + Earned(c, calls[k].now, now)
  }

  /** The key's tokens are what the tightest of its windows leaves. */
  ghost predicate Tightest(c: Config, l: Limiter, calls: seq<Call>, key: string) {
    var after := After(c, l, calls);
    && key in after.buckets
    && (forall k :: 0 <= k < |calls| && calls[k].key == key ==>
          WindowAllows(c, l, calls, key, k, after.buckets[key].tokens, after.buckets[key].updated))
    && exists k :: 0 <= k < |calls| && calls[k].key == key
                   && !(SpentFrom(c, l, calls, key, k) + after.buckets[key].tokens
                        < c.capacity + Earned(c, calls[k].now, after.buckets[key].updated))
  }

  lemma SpentFromPush(c: Config, l: Limiter, front: seq<Call>, call: Call, key: string, k: nat)
    requires k <= |front|
    ensures SpentFrom(c, l, front + [call], key, k)
            == SpentFrom(c, l, front, key, k) + Charge(c, After(c, l, front), call, key)
  {
    CallPush(c, l, front, call, key);
    assert (front + [call])[..k] == front[..k];
  }

  lemma RefillIsExact(c: Config, b: Bucket, now: real)
    requires ValidConfig(c) && b.updated <= now
    ensures Refilled(c, b, now) == Bucket(Lesser(c.capacity, b.tokens + Earned(c, b.updated, now)), now)
  {
    assert (now - b.updated) / 1000.0 * c.perSecond == Earned(c, b.updated, now);
  }

  /** A key's own call leaves what the refill gave, less what it took. */
  lemma OwnCallLeaves(c: Config, l: Limiter, call: Call)
    requires ValidConfig(c) && call.key in l.buckets && l.buckets[call.key].updated <= call.now
    ensures var b := l.buckets[call.key];
            var ready := Lesser(c.capacity, b.tokens + Earned(c, b.updated, call.now));
            && (Accepts(c, l, call) <==> call.cost <= ready)
            && call.key in Take(c, l, call).buckets
            && Take(c, l, call).buckets[call.key] == Bucket(ready - Charge(c, l, call, call.key), call.now)
  {
    RefillIsExact(c, l.buckets[call.key], call.now);
  }

  lemma OwnCallKeepsTightest(c: Config, l: Limiter, front: seq<Call>, call: Call)
    requires ValidConfig(c) && Tightest(c, l, front, call.key)
    requires After(c, l, front).buckets[call.key].updated <= call.now
    ensures Tightest(c, l, front + [call], call.key)
  {
    var key, calls, before := call.key, front + [call], After(c, l, front);
    var b := before.buckets[key];
    CallPush(c, l, front, call, key);
    OwnCallLeaves(c, before, call);
    assert calls[..|front|] == front;
    forall k | 0 <= k < |front| && front[k].key == key
      ensures SpentFrom(c, l, calls, key, k) + After(c, l, calls).buckets[key].tokens
              <= c.capacity + Earned(c, calls[k].now, call.now)
      ensures !(SpentFrom(c, l, front, key, k) + b.tokens < c.capacity + Earned(c, front[k].now, b.updated))
              && b.tokens + Earned(c, b.updated, call.now) <= c.capacity ==>
                !(SpentFrom(c, l, calls, key, k) + After(c, l, calls).buckets[key].tokens
                  < c.capacity + Earned(c, calls[k].now, call.now))
    {
      assert WindowAllows(c, l, front, key, k, b.tokens, b.updated);
      SpentFromPush(c, l, front, call, key, k);
      EarnedAdds(c, front[k].now, b.updated, call.now);
      assert calls[k] == front[k];
    }
    assert Earned(c, call.now, call.now) == 0.0;
    assert calls[|front|] == call;
    if b.tokens + Earned(c, b.updated, call.now) <= c.capacity {
      var k :| 0 <= k < |front| && front[k].key == key
               && !(SpentFrom(c, l, front, key, k) + b.tokens < c.capacity + Earned(c, front[k].now, b.updated));
      assert calls[k].key == key;
    } else {
      assert calls[|front|].key == key;
    }
  }

  lemma OtherCallKeepsTightest(c: Config, l: Limiter, front: seq<Call>, call: Call, key: string)
    requires Tightest(c, l, front, key) && call.key != key && key in After(c, l, front + [call]).buckets
    ensures Tightest(c, l, front + [call], key)
    ensures After(c, l, front + [call]).buckets[key] == After(c, l, front).buckets[key]
  {
    var calls := front + [call];
    CallPush(c, l, front, call, key);
    assert After(c, l, calls).buckets[key] == After(c, l, front).buckets[key];
    forall k | 0 <= k < |front|
      ensures SpentFrom(c, l, calls, key, k) == SpentFrom(c, l, front, key, k) && calls[k] == front[k]
    {
      SpentFromPush(c, l, front, call, key, k);
    }
    var b := After(c, l, front).buckets[key];
    forall k | 0 <= k < |calls| && calls[k].key == key
      ensures WindowAllows(c, l, calls, key, k, b.tokens, b.updated)
    {
      assert WindowAllows(c, l, front, key, k, b.tokens, b.updated);
    }
  }

  lemma FirstCallIsTightest(c: Config, l: Limiter, call: Call)
    requires ValidConfig(c) && call.key !in l.buckets
    ensures Tightest(c, l, [call], call.key) && After(c, l, [call]).buckets[call.key].updated == call.now
  {
    CallPush(c, l, [], call, call.key);
    assert [] + [call] == [call] && [call][..0] == [];
    assert Earned(c, call.now, call.now) == 0.0;
    assert [call][0].key == call.key;
  }

  lemma {:induction false} TightestThroughout(c: Config, l: Limiter, calls: seq<Call>)
    requires ValidConfig(c) && calls != [] && Rising(calls) && calls[0].key !in l.buckets
    requires Stays(c, l, calls, calls[0].key)
    ensures Tightest(c, l, calls, calls[0].key)
    ensures After(c, l, calls).buckets[calls[0].key].updated <= calls[|calls| - 1].now
  {
    var key := calls[0].key;
    if |calls| == 1 {
      FirstCallIsTightest(c, l, calls[0]);
      assert calls == [calls[0]];
    } else {
      var front, last := calls[..|calls| - 1], calls[|calls| - 1];
      assert calls == front + [last] && calls[..|calls|] == calls;
      forall k | 1 <= k <= |front| ensures key in After(c, l, front[..k]).buckets {
        assert front[..k] == calls[..k];
      }
      TightestThroughout(c, l, front);
      if last.key == key {
        OwnCallKeepsTightest(c, l, front, last);
        CallPush(c, l, front, last, key);
        OwnCallLeaves(c, After(c, l, front), last);
      } else {
        OtherCallKeepsTightest(c, l, front, last, key);
      }
    }
  }

  /**
   * From the call that first opened its bucket, and while it is not evicted, a
   * key's next call is accepted if and only if it fits the burst and no window
   * since one of the key's calls would exceed the burst plus what time added.
   */
  lemma AcceptedIff(c: Config, l: Limiter, calls: seq<Call>, call: Call)
    requires ValidConfig(c) && calls != [] && Rising(calls + [call]) && calls[0].key !in l.buckets
    requires Stays(c, l, calls, calls[0].key) && call.key == calls[0].key
    ensures Accepts(c, After(c, l, calls), call)
            <==> && call.cost <= c.capacity
                 && forall k :: 0 <= k < |calls| && calls[k].key == call.key ==>
                      WindowAllows(c, l, calls, call.key, k, call.cost, call.now)
  {
    var key := call.key;
    assert Rising(calls) by {
      assert forall i :: 0 <= i < |calls| ==> (calls + [call])[i] == calls[i];
    }
    assert calls[|calls| - 1].now <= call.now by {
      assert (calls + [call])[|calls| - 1] == calls[|calls| - 1] && (calls + [call])[|calls|] == call;
    }
    TightestThroughout(c, l, calls);
    var b := After(c, l, calls).buckets[key];
    OwnCallLeaves(c, After(c, l, calls), call);
    forall k | 0 <= k < |calls| && calls[k].key == key
      ensures call.cost <= b.tokens + Earned(c, b.updated, call.now) ==> WindowAllows(c, l, calls, key, k, call.cost, call.now)
    {
      assert WindowAllows(c, l, calls, key, k, b.tokens, b.updated);
      EarnedAdds(c, calls[k].now, b.updated, call.now);
    }
    var k :| 0 <= k < |calls| && calls[k].key == key
             && !(SpentFrom(c, l, calls, key, k) + b.tokens < c.capacity + Earned(c, calls[k].now, b.updated));
    EarnedAdds(c, calls[k].now, b.updated, call.now);
    if WindowAllows(c, l, calls, key, k, call.cost, call.now) {
      assert call.cost <= b.tokens + Earned(c, b.updated, call.now);
    }
  }
}
