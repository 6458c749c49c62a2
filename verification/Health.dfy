/** Provider health: consecutive failures trip a breaker, and repeated quota marks back off, doubling
    the cooldown each time it has run out in vain. */
module Health {
  import opened Wire

  /** What is kept of one provider; times and durations in the clock's unit. */
  datatype Status = Status(failures: int, since: Option<int>, own: Option<int>)

  const FRESH := Status(0, None, None)

  datatype Limits = Limits(threshold: int, cooldown: int)

  function CooldownOf(l: Limits, s: Status): int {
    if s.own.Some? then s.own.value else l.cooldown
  }

  predicate Healthy(l: Limits, s: Status, now: int) {
    s.since.None? || now - s.since.value > CooldownOf(l, s)
  }

  function SuccessStep(s: Status): Status {
    FRESH
  }

  function FailureStep(l: Limits, s: Status, now: int): Status {
    if s.failures + 1 >= l.threshold then Status(s.failures + 1, Some(now), None) else s.(failures := s.failures + 1)
  }

  function MarkStep(s: Status, now: int, cooldown: int): Status {
    Status(0, Some(now), Some(cooldown))
  }

  function Capped(max: int, d: int): int {
    if max > 0 && d > max then max else d
  }

  function BaseOf(l: Limits, base: int, max: int): int {
    Capped(max, if base <= 0 then l.cooldown else base)
  }

  function EscalateStep(l: Limits, s: Status, now: int, base: int, max: int): Status {
    var b := BaseOf(l, base, max);
    if !Healthy(l, s, now) then if s.own.Some? then s else Status(0, Some(now), Some(b))
    else Status(0, Some(now), Some(if s.own.Some? && s.own.value > 0 then Capped(max, s.own.value * 2) else b))
  }

  class Checker {
    var failureCounts: map<string, int>
    var unhealthyAt: map<string, int>
    var cooldownOverride: map<string, int>
    const threshold: int
    const cooldown: int

    function Settings(): Limits {
      Limits(threshold, cooldown)
    }

    ghost function View(provider: string): Status
      reads this
    {
      Status(if provider in failureCounts then failureCounts[provider] else 0,
             if provider in unhealthyAt then Some(unhealthyAt[provider]) else None,
             if provider in cooldownOverride then Some(cooldownOverride[provider]) else None)
    }

    /** Only this provider's status changes. */
    twostate predicate OthersKept(provider: string)
      reads this
    {
      forall p :: p != provider ==> View(p) == old(View(p))
    }

    constructor (limit: int, recovery: int)
      ensures Settings() == Limits(limit, recovery) && forall p :: View(p) == FRESH
    {
      threshold, cooldown := limit, recovery;
      failureCounts, unhealthyAt, cooldownOverride := map[], map[], map[];
    }

    method IsHealthy(provider: string, now: int) returns (r: bool)
      ensures r == Healthy(Settings(), View(provider), now)
    {
      if provider !in unhealthyAt {
        return true;
      }
      var d := cooldown;
      if provider in cooldownOverride {
        d := cooldownOverride[provider];
      }
      r := now - unhealthyAt[provider] > d;
    }

    method ReportSuccess(provider: string)
      modifies this
      ensures View(provider) == SuccessStep(old(View(provider))) && OthersKept(provider)
    {
      failureCounts := failureCounts[provider := 0];
      unhealthyAt := unhealthyAt - {provider};
      cooldownOverride := cooldownOverride - {provider};
    }

    method ReportFailure(provider: string, now: int)
      modifies this
      ensures View(provider) == FailureStep(Settings(), old(View(provider)), now) && OthersKept(provider)
    {
      var n := if provider in failureCounts then failureCounts[provider] + 1 else 1;
      failureCounts := failureCounts[provider := n];
      if n >= threshold {
        cooldownOverride := cooldownOverride - {provider};
        unhealthyAt := unhealthyAt[provider := now];
      }
    }

    method MarkUnhealthyFor(provider: string, now: int, d: int)
      modifies this
      ensures View(provider) == MarkStep(old(View(provider)), now, d) && OthersKept(provider)
    {
      failureCounts := failureCounts[provider := 0];
      unhealthyAt := unhealthyAt[provider := now];
      cooldownOverride := cooldownOverride[provider := d];
    }

    method MarkUnhealthyEscalating(provider: string, now: int, baseCooldown: int, maxCooldown: int)
      modifies this
      ensures View(provider) == EscalateStep(Settings(), old(View(provider)), now, baseCooldown, maxCooldown) && OthersKept(provider)
    {
      var base := baseCooldown;
      if base <= 0 {
        base := cooldown;
      }
      if maxCooldown > 0 && base > maxCooldown {
        base := maxCooldown;
      }
      if provider in unhealthyAt {
        var d := cooldown;
        if provider in cooldownOverride {
          d := cooldownOverride[provider];
        }
        if now - unhealthyAt[provider] <= d {
          if provider in cooldownOverride {
            return;
          }
          MarkUnhealthyFor(provider, now, base);
          return;
        }
      }
      var next := base;
      if provider in cooldownOverride && cooldownOverride[provider] > 0 {
        next := cooldownOverride[provider] * 2;
        if maxCooldown > 0 && next > maxCooldown {
          next := maxCooldown;
        }
      }
      MarkUnhealthyFor(provider, now, next);
    }
  }

  // ---- runs ----

  datatype Report = Success | Failure(now: int) | Mark(now: int)

  function ReportStep(l: Limits, base: int, max: int, s: Status, r: Report): Status {
    match r
    case Success => SuccessStep(s)
    case Failure(now) => FailureStep(l, s, now)
    case Mark(now) => EscalateStep(l, s, now, base, max)
  }

  function Reported(l: Limits, base: int, max: int, rs: seq<Report>): Status {
    if rs == [] then FRESH else ReportStep(l, base, max, Reported(l, base, max, rs[..|rs| - 1]), rs[|rs| - 1])
  }

  function Power(k: nat): nat {
    if k == 0 then 1 else 2 * Power(k - 1)
  }

  /** The cooldown of the `k`-th period, from 0. A base that is not positive is never doubled. */
  function Cooldown(b: int, max: int, k: nat): int {
    if b > 0 then Capped(max, b * Power(k)) else b
  }

  // ---- what a history of reports amounts to ----

  /** Does the last report of a history start a period of back-off? A mark does unless one runs. */
  predicate Starts(l: Limits, base: int, max: int, p: seq<Report>, r: Report)
    decreases |p|, 1
  {
    r.Mark? && !(Periods(l, base, max, p) > 0 && Last(l, base, max, p).Some?
                 && r.now - Last(l, base, max, p).value <= Cooldown(BaseOf(l, base, max), max, Periods(l, base, max, p) - 1))
  }

  /** Does a failure trip the breaker? */
  predicate Trips(l: Limits, base: int, max: int, p: seq<Report>, r: Report)
    decreases |p|, 1
  {
    r.Failure? && Failures(l, base, max, p) + 1 >= l.threshold
  }

  /** Failures since the last success or period of back-off. */
  function Failures(l: Limits, base: int, max: int, rs: seq<Report>): nat
    decreases |rs|, 0
  {
    if rs == [] then 0
    else
      var p, r := rs[..|rs| - 1], rs[|rs| - 1];
      if r.Success? || Starts(l, base, max, p, r) then 0
      else if r.Failure? then Failures(l, base, max, p) + 1
      else Failures(l, base, max, p)
  }

  /** Periods of back-off since the last success or tripped breaker. */
  function Periods(l: Limits, base: int, max: int, rs: seq<Report>): nat
    decreases |rs|, 0
  {
    if rs == [] then 0
    else
      var p, r := rs[..|rs| - 1], rs[|rs| - 1];
      if r.Success? || Trips(l, base, max, p, r) then 0
      else if Starts(l, base, max, p, r) then Periods(l, base, max, p) + 1
      else Periods(l, base, max, p)
  }

  /** When the last period began or the breaker last tripped, if after the last success. */
  function Last(l: Limits, base: int, max: int, rs: seq<Report>): Option<int>
    decreases |rs|, 0
  {
    if rs == [] then None
    else
      var p, r := rs[..|rs| - 1], rs[|rs| - 1];
      if r.Success? then None
      else if Starts(l, base, max, p, r) || Trips(l, base, max, p, r) then Some(r.now)
      else Last(l, base, max, p)
  }

  lemma PowerGrows(k: nat)
    ensures Power(k) >= 1
  {
    if k > 0 { PowerGrows(k - 1); }
  }

  /** Doubling and capping at each step is capping the power once. */
  lemma {:induction false} CappedOnce(max: int, base: int, k: nat)
    requires base > 0 && (max > 0 ==> base <= max)
    ensures Capped(max, Capped(max, base * Power(k)) * 2) == Capped(max, base * Power(k + 1))
    ensures Capped(max, base * Power(k)) > 0
  {
    PowerGrows(k);
    assert base * Power(k) >= base;
    assert base * Power(k + 1) == 2 * (base * Power(k));
  }

  /** The next cooldown after the `k`-th, and the first. */
  lemma NextCooldown(l: Limits, base: int, max: int, k: nat)
    ensures var b := BaseOf(l, base, max);
            && Cooldown(b, max, 0) == b
            && Cooldown(b, max, k + 1) == if Cooldown(b, max, k) > 0 then Capped(max, Cooldown(b, max, k) * 2) else b
  {
    var b := BaseOf(l, base, max);
    if b > 0 {
      CappedOnce(max, b, k);
      assert b * Power(0) == b;
    }
  }

  /** In any run of successes, failures and marks with one base and maximum: the cooldown is the base doubled for
      every further period of back-off, at most the maximum, where a period begins with each mark that is
      made while none runs; it counts from that mark; successes and a tripped breaker start over. */
  lemma {:induction false} BackOff(l: Limits, base: int, max: int, rs: seq<Report>)
    ensures var k := Periods(l, base, max, rs);
            Reported(l, base, max, rs) ==
              Status(Failures(l, base, max, rs), Last(l, base, max, rs),
                     if k > 0 then Some(Cooldown(BaseOf(l, base, max), max, k - 1)) else None)
    ensures Periods(l, base, max, rs) > 0 ==> Last(l, base, max, rs).Some?
  {
    hide Cooldown, BaseOf, Capped;
    if rs != [] {
      var p, r := rs[..|rs| - 1], rs[|rs| - 1];
      BackOff(l, base, max, p);
      var k := Periods(l, base, max, p);
      NextCooldown(l, base, max, if k > 0 then k - 1 else 0);
    }
  }

  /** Inside a period, that is while its provider is not healthy, a mark changes nothing. */
  lemma MarkInside(l: Limits, base: int, max: int, rs: seq<Report>, now: int)
    requires Periods(l, base, max, rs) > 0 && !Healthy(l, Reported(l, base, max, rs), now)
    ensures !Starts(l, base, max, rs, Mark(now))
    ensures Reported(l, base, max, rs + [Mark(now)]) == Reported(l, base, max, rs)
  {
    hide Cooldown, BaseOf, Failures, Last;
    BackOff(l, base, max, rs);
    assert (rs + [Mark(now)])[..|rs|] == rs;
  }

  function Failed(l: Limits, s: Status, times: seq<int>): Status {
    if times == [] then s else FailureStep(l, Failed(l, s, times[..|times| - 1]), times[|times| - 1])
  }

  /** Failures alone mark a provider only from the threshold on, counted from its last success. */
  lemma {:induction false} FailuresTrip(l: Limits, before: Status, times: seq<int>)
    ensures var s := Failed(l, SuccessStep(before), times);
            && s.failures == |times| && s.own.None?
            && (s.since.Some? <==> times != [] && |times| >= l.threshold)
            && (s.since.Some? ==> s.since.value == times[|times| - 1])
  {
    if times != [] {
      FailuresTrip(l, before, times[..|times| - 1]);
    }
  }

  /** The first mark of a history that only succeeds or is marked: the cooldown is the base that was given, the checker's own
      if none was, and never above a maximum that was given. */
  lemma FirstCooldown(l: Limits, base: int, max: int, now: int)
    ensures var own := Reported(l, base, max, [Mark(now)]).own;
            && own.Some?
            && (max <= 0 ==> own.value == if base > 0 then base else l.cooldown)
            && (max > 0 ==> own.value <= max && own.value <= (if base > 0 then base else l.cooldown)
                            && own.value in {max, if base > 0 then base else l.cooldown})
  {
    assert [Mark(now)][..0] == [];
  }
}
