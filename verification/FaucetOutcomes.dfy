/** Exactly when the faucet serves a drip, in any state a run can leave it in. */
module FaucetOutcomes {
  import opened Wrappers
  import opened Faucet

  /** The reservations still standing that are less than an hour old. */
  function StandingInHour(made: seq<Reservation>, now: nat): set<nat> {
    set i: nat | i < |made| && made[i].live && made[i].time > now - 3_600_000
  }

  /** The addresses whose last drip is less than a cooldown old. */
  function Cooling(c: Config, last: map<string, nat>, now: nat): set<string> {
    set k | k in last && now - last[k] < c.cooldown
  }

  lemma {:induction false} StandingIsCounted(made: seq<Reservation>, now: nat)
    ensures |LiveAbove(made, now - HOUR)| == |StandingInHour(made, now)|
  {
    if made == [] {
      assert StandingInHour(made, now) == {};
    } else {
      var front, r := made[..|made| - 1], made[|made| - 1];
      StandingIsCounted(front, now);
      assert made == front + [r];
      if r.live && r.time > now - HOUR {
        assert StandingInHour(made, now) == StandingInHour(front, now) + {|front|};
      } else {
        assert StandingInHour(made, now) == StandingInHour(front, now);
      }
    }
  }

  lemma PrunedAddresses(c: Config, last: map<string, nat>, now: nat)
    ensures |PruneLast(c, last, now)| == if |last| > 25_000 then |Cooling(c, last, now)| else |last|
    ensures forall k :: k in PruneLast(c, last, now) ==> k in last && PruneLast(c, last, now)[k] == last[k]
    ensures forall k :: k in last && now - last[k] < c.cooldown ==> k in PruneLast(c, last, now)
  {
    if |last| > 25_000 {
      assert PruneLast(c, last, now).Keys == Cooling(c, last, now);
    }
  }

  /**
   * After any run, a drip is served exactly when its address is not cooling
   * down, the hour's standing drips leave room and not too many addresses are
   * still cooling down. A served drip is one more reservation, and a refused
   * one none.
   */
  lemma DripServedIff(c: Config, steps: seq<Step>, address: string, now: nat)
    requires Run(c, steps).Some? && now >= Run(c, steps).value.clock
    ensures var s := Run(c, steps).value;
            var after := Next(c, s, Drip(address, now)).value;
            && after.clock == now
            && if && (if address in s.last then now - s.last[address] >= c.cooldown else now >= c.cooldown)
                  && |StandingInHour(s.made, now)| < c.maxPerHour
                  && (|s.last| > 25_000 ==> |Cooling(c, s.last, now)| < 50_000)
               then
                 && after.made == s.made + [Reservation(address, now, true)] && after.open == s.open + {|s.made|}
                 && address in after.last && after.last[address] == now
                 && (forall k :: k in Cooling(c, s.last, now) ==> k in after.last)
               else after.made == s.made && after.open == s.open
  {
    var s := Run(c, steps).value;
    var cutoff := RunKeepsBudget(c, steps);
    PrunedRecord(c, s, cutoff, now);
    StandingIsCounted(s.made, now);
    PrunedAddresses(c, s.last, now);
  }
}
