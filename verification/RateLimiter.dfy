/**
 The fixed-window rate limiter: allowRequest and allowRequestLocked of
 internal/app/coordinator_http.go.
 */
module RateLimiter {
  import opened Prelude

  datatype Window = Window(started: Time, count: nat)

  type Rates = map<string, Window>

  const SWEEP_ABOVE: nat := 4096

  /** The window a request at `now` falls into; a missing or old one is replaced. */
  function WindowAt(rates: Rates, key: string, now: Time): Window {
    if key in rates && now - rates[key].started < MINUTE then rates[key] else Window(now, 0)
  }

  predicate Allows(rates: Rates, key: string, limit: int, now: Time) {
    WindowAt(rates, key, now).count < limit
  }

  function Count(rates: Rates, key: string, limit: int, now: Time): Rates {
    if !Allows(rates, key, limit, now) then rates
    else
      var w := WindowAt(rates, key, now);
      rates[key := w.(count := w.count + 1)]
  }

  function Sweep(rates: Rates, now: Time): Rates {
    if |rates| <= SWEEP_ABOVE then rates
    else map key | key in rates && now - rates[key].started < 2 * MINUTE :: rates[key]
  }

  class Limiter {
    var rates: Rates

    constructor ()
      ensures rates == map[]
    {
      rates := map[];
    }

    method AllowRequestLocked(key: string, limit: int, now: Time) returns (allowed: bool)
      modifies this
      ensures allowed == Allows(old(rates), key, limit, now) && rates == Count(old(rates), key, limit, now)
    {
      var window := Window(now, 0);
      if key in rates && now - rates[key].started < MINUTE {
        window := rates[key];
      }
      if window.count >= limit {
        return false;
      }
      rates := rates[key := window.(count := window.count + 1)];
      allowed := true;
    }

    method AllowRequest(key: string, limit: int, now: Time) returns (allowed: bool)
      modifies this
      ensures allowed == Allows(Sweep(old(rates), now), key, limit, now)
      ensures rates == Count(Sweep(old(rates), now), key, limit, now)
      ensures |old(rates)| > 4096 ==> forall k :: k in rates && k != key ==> now - rates[k].started < 2 * MINUTE
      ensures forall k :: k in old(rates) && k != key && k !in rates ==> now - old(rates)[k].started >= 2 * MINUTE
    {
      if |rates| > SWEEP_ABOVE {
        ghost var before := rates;
        var remaining := rates.Keys;
        while remaining != {}
          invariant remaining <= before.Keys
          invariant forall k :: k in before ==> (k in rates <==> k in remaining || now - before[k].started < 2 * MINUTE)
          invariant forall k :: k in rates ==> k in before && rates[k] == before[k]
          decreases |remaining|
        {
          var k :| k in remaining;
          remaining := remaining - {k};
          if now - rates[k].started >= 2 * MINUTE {
            rates := rates - {k};
          }
        }
        assert rates == Sweep(before, now);
      }
      allowed := AllowRequestLocked(key, limit, now);
    }
  }

  // ----- runs -----

  /** A request; `sweeps` when it enters through allowRequest. */
  datatype Request = Request(key: string, limit: int, now: Time, sweeps: bool)

  predicate Ordered(rs: seq<Request>) {
    forall i, j :: 0 <= i < j < |rs| ==> rs[i].now <= rs[j].now
  }

  /** The table a request meets; without `sweeping` no request ever sweeps. */
  function Met(rates: Rates, r: Request, sweeping: bool): Rates {
    if sweeping && r.sweeps then Sweep(rates, r.now) else rates
  }

  function RatesAfter(rs: seq<Request>, sweeping: bool): Rates {
    if rs == [] then map[]
    else
      var r := rs[|rs| - 1];
      Count(Met(RatesAfter(rs[..|rs| - 1], sweeping), r, sweeping), r.key, r.limit, r.now)
  }

  predicate Admitted(rs: seq<Request>, k: nat, sweeping: bool)
    requires k < |rs|
  {
    Allows(Met(RatesAfter(rs[..k], sweeping), rs[k], sweeping), rs[k].key, rs[k].limit, rs[k].now)
  }

  /** The instants at which requests of a key were admitted. */
  function Log(rs: seq<Request>, key: string, sweeping: bool): seq<Time> {
    if rs == [] then []
    else
      Log(rs[..|rs| - 1], key, sweeping) +
      if rs[|rs| - 1].key == key && Admitted(rs, |rs| - 1, sweeping) then [rs[|rs| - 1].now] else []
  }

  /** How many of the instants lie in the closed interval. */
  function Within(log: seq<Time>, from: Time, to: Time): nat {
    if log == [] then 0
    else Within(log[..|log| - 1], from, to) + if from <= log[|log| - 1] <= to then 1 else 0
  }

  // ----- the sweep is invisible -----

  /** From `now` on, the two tables give every key the same window. */
  ghost predicate Agree(swept: Rates, full: Rates, now: Time) {
    && (forall k :: k in swept ==> k in full && swept[k] == full[k])
    && (forall k :: k in full && k !in swept ==> now - full[k].started >= MINUTE)
  }

  lemma StepAgrees(swept: Rates, full: Rates, r: Request, before: Time)
    requires Agree(swept, full, before) && before <= r.now
    ensures Agree(Count(Met(swept, r, true), r.key, r.limit, r.now), Count(full, r.key, r.limit, r.now), r.now)
    ensures Allows(Met(swept, r, true), r.key, r.limit, r.now) == Allows(full, r.key, r.limit, r.now)
  {
    var met := Met(swept, r, true);
    assert Agree(met, full, r.now);
    assert WindowAt(met, r.key, r.now) == WindowAt(full, r.key, r.now);
  }

  lemma {:induction false} TablesAgree(rs: seq<Request>, now: Time)
    requires Ordered(rs) && (rs != [] ==> now == rs[|rs| - 1].now)
    ensures Agree(RatesAfter(rs, true), RatesAfter(rs, false), now)
  {
    if rs != [] {
      var front := rs[..|rs| - 1];
      var before := if front == [] then now else front[|front| - 1].now;
      TablesAgree(front, before);
      StepAgrees(RatesAfter(front, true), RatesAfter(front, false), rs[|rs| - 1], before);
    }
  }

  /** For non-decreasing times the sweep never changes a decision. */
  lemma SweepInvisible(rs: seq<Request>, k: nat)
    requires Ordered(rs) && k < |rs|
    ensures Admitted(rs, k, true) == Admitted(rs, k, false)
  {
    var front := rs[..k];
    var before := if k == 0 then rs[k].now else rs[k - 1].now;
    TablesAgree(front, before);
    StepAgrees(RatesAfter(front, true), RatesAfter(front, false), rs[k], before);
  }

  lemma {:induction false} LogsAgree(rs: seq<Request>, key: string)
    requires Ordered(rs)
    ensures Log(rs, key, true) == Log(rs, key, false)
  {
    if rs != [] {
      LogsAgree(rs[..|rs| - 1], key);
      SweepInvisible(rs, |rs| - 1);
    }
  }

  // ----- the bound -----

  predicate LimitIs(rs: seq<Request>, key: string, limit: int) {
    forall i :: 0 <= i < |rs| && rs[i].key == key ==> rs[i].limit == limit
  }

  lemma {:induction false} WithinNone(log: seq<Time>, from: Time, to: Time)
    requires forall i :: 0 <= i < |log| ==> log[i] < from || log[i] > to
    ensures Within(log, from, to) == 0
  {
    if log != [] {
      WithinNone(log[..|log| - 1], from, to);
    }
  }

  lemma {:induction false} WithinSplit(log: seq<Time>, from: Time, mid: Time, to: Time)
    requires from <= mid
    ensures Within(log, from, to) <= Within(log, from, mid - 1) + Within(log, mid, to)
  {
    if log != [] {
      WithinSplit(log[..|log| - 1], from, mid, to);
    }
  }

  lemma {:induction false} WithinGrows(log: seq<Time>, from: Time, to: Time, lower: Time, upper: Time)
    requires lower <= from && to <= upper
    ensures Within(log, from, to) <= Within(log, lower, upper)
  {
    if log != [] {
      WithinGrows(log[..|log| - 1], from, to, lower, upper);
    }
  }

  predicate FitsMinute(log: seq<Time>, from: Time, limit: int) {
    Within(log, from, from + MINUTE) <= 2 * limit
  }

  predicate FitsBefore(log: seq<Time>, from: Time, started: Time, limit: int) {
    started - MINUTE <= from ==> Within(log, from, started - 1) <= limit
  }

  /**
   The current window holds everything admitted since it began, and what was admitted in the
   minute before it began also fits the limit.
   */
  ghost predicate WindowSound(w: Window, log: seq<Time>, limit: int, now: Time) {
    && w.started <= now && w.count <= limit
    && (forall i :: 0 <= i < |log| ==> log[i] < w.started + MINUTE)
    && Within(log, w.started, now) == w.count
    && (forall t: Time :: FitsBefore(log, t, w.started, limit))
  }

  ghost predicate KeySound(rates: Rates, key: string, log: seq<Time>, limit: int, now: Time) {
    && (forall i :: 0 <= i < |log| ==> log[i] <= now)
    && (if key in rates then WindowSound(rates[key], log, limit, now) else log == [])
    && (forall t: Time :: FitsMinute(log, t, limit))
  }

  lemma {:induction false} LaterSame(log: seq<Time>, from: Time, now: Time, later: Time)
    requires (forall i :: 0 <= i < |log| ==> log[i] <= now) && now <= later
    ensures Within(log, from, later) == Within(log, from, now)
  {
    if log != [] {
      LaterSame(log[..|log| - 1], from, now, later);
    }
  }

  lemma KeySoundLater(rates: Rates, key: string, log: seq<Time>, limit: int, now: Time, later: Time)
    requires KeySound(rates, key, log, limit, now) && now <= later
    ensures KeySound(rates, key, log, limit, later)
  {
    if key in rates {
      LaterSame(log, rates[key].started, now, later);
    }
  }

  lemma WithinSnoc(log: seq<Time>, x: Time, from: Time, to: Time)
    ensures Within(log + [x], from, to) == Within(log, from, to) + if from <= x <= to then 1 else 0
  {
    assert (log + [x])[..|log|] == log;
  }

  /** A request opens a new window: everything in the minute before it fits one window. */
  lemma OpeningFits(rates: Rates, key: string, log: seq<Time>, limit: int, now: Time, t: Time)
    requires KeySound(rates, key, log, limit, now) && limit >= 0
    requires key in rates ==> now - rates[key].started >= MINUTE
    requires now - MINUTE <= t
    ensures Within(log, t, now) <= limit
  {
    if key in rates {
      WithinGrows(log, t, now, rates[key].started, now);
    }
  }

  lemma AdmitOpens(rates: Rates, key: string, log: seq<Time>, limit: int, now: Time)
    requires KeySound(rates, key, log, limit, now) && limit >= 1
    requires key in rates ==> now - rates[key].started >= MINUTE
    ensures KeySound(rates[key := Window(now, 1)], key, log + [now], limit, now)
  {
    var more := log + [now];
    WithinNone(log, now, now);
    WithinSnoc(log, now, now, now);
    forall t: Time ensures FitsBefore(more, t, now, limit) {
      WithinSnoc(log, now, t, now - 1);
      WithinGrows(log, t, now - 1, t, now);
      if now - MINUTE <= t {
        OpeningFits(rates, key, log, limit, now, t);
      }
    }
    forall t: Time ensures FitsMinute(more, t, limit) {
      assert FitsMinute(log, t, limit);
      WithinSnoc(log, now, t, t + MINUTE);
      if t <= now <= t + MINUTE {
        OpeningFits(rates, key, log, limit, now, t);
        LaterSame(log, t, now, t + MINUTE);
      }
    }
  }

  lemma AdmitMore(rates: Rates, key: string, log: seq<Time>, limit: int, now: Time)
    requires KeySound(rates, key, log, limit, now) && key in rates && now - rates[key].started < MINUTE
    requires rates[key].count < limit
    ensures KeySound(rates[key := Window(rates[key].started, rates[key].count + 1)], key, log + [now], limit, now)
  {
    var more, w := log + [now], rates[key];
    WithinSnoc(log, now, w.started, now);
    forall t: Time ensures FitsBefore(more, t, w.started, limit) {
      assert FitsBefore(log, t, w.started, limit);
      WithinSnoc(log, now, t, w.started - 1);
    }
    forall t: Time ensures FitsMinute(more, t, limit) {
      assert FitsMinute(log, t, limit);
      WithinSnoc(log, now, t, t + MINUTE);
      if t <= now <= t + MINUTE {
        LaterSame(log, t, now, t + MINUTE);
        if t <= w.started {
          assert FitsBefore(log, t, w.started, limit);
          WithinSplit(log, t, w.started, now);
        } else {
          WithinGrows(log, t, now, w.started, now);
        }
      }
    }
  }

  /** Every admission keeps the books of its key, and no request touches another key's. */
  lemma CountKeeps(rates: Rates, key: string, log: seq<Time>, limit: int, r: Request)
    requires KeySound(rates, key, log, limit, r.now) && (r.key == key ==> r.limit == limit)
    ensures KeySound(Count(rates, r.key, r.limit, r.now), key,
                     if r.key == key && Allows(rates, r.key, r.limit, r.now) then log + [r.now] else log, limit, r.now)
  {
    if r.key == key && Allows(rates, key, limit, r.now) {
      if key in rates && r.now - rates[key].started < MINUTE {
        AdmitMore(rates, key, log, limit, r.now);
      } else {
        AdmitOpens(rates, key, log, limit, r.now);
      }
    }
  }

  lemma {:induction false} RunSound(rs: seq<Request>, key: string, limit: int, now: Time)
    requires Ordered(rs) && LimitIs(rs, key, limit) && limit >= 0
    requires forall i :: 0 <= i < |rs| ==> rs[i].now <= now
    ensures KeySound(RatesAfter(rs, false), key, Log(rs, key, false), limit, now)
  {
    if rs == [] {
      assert forall t: Time :: FitsMinute([], t, limit);
    } else {
      var front, r := rs[..|rs| - 1], rs[|rs| - 1];
      RunSound(front, key, limit, r.now);
      CountKeeps(RatesAfter(front, false), key, Log(front, key, false), limit, r);
      assert Log(front, key, false) + [] == Log(front, key, false);
      KeySoundLater(RatesAfter(rs, false), key, Log(rs, key, false), limit, r.now, now);
    }
  }

  /** Any closed minute admits at most twice the limit of a key, with or without sweeps. */
  lemma TwiceTheLimit(rs: seq<Request>, key: string, limit: int, from: Time, sweeping: bool)
    requires Ordered(rs) && LimitIs(rs, key, limit) && limit >= 0
    ensures Within(Log(rs, key, sweeping), from, from + MINUTE) <= 2 * limit
  {
    LogsAgree(rs, key);
    RunSound(rs, key, limit, if rs == [] then 0 else rs[|rs| - 1].now);
    assert FitsMinute(Log(rs, key, false), from, limit);
  }

  /** And a request is refused only when the minute that ends with it has admitted the limit. */
  lemma RefusedOnlyWhenFull(rs: seq<Request>, k: nat, limit: int)
    requires Ordered(rs) && k < |rs| && LimitIs(rs, rs[k].key, limit) && limit >= 1 && !Admitted(rs, k, true)
    ensures Within(Log(rs[..k], rs[k].key, true), rs[k].now - MINUTE + 1, rs[k].now) >= limit
  {
    var front, r := rs[..k], rs[k];
    SweepInvisible(rs, k);
    LogsAgree(front, r.key);
    RunSound(front, r.key, limit, r.now);
    var w := RatesAfter(front, false)[r.key];
    WithinGrows(Log(front, r.key, false), w.started, r.now, r.now - MINUTE + 1, r.now);
  }

  /** The factor two is needed: one request at each end of a closed minute, with a limit of one. */
  lemma BoundIsReached(key: string)
    ensures var rs := [Request(key, 1, 0, true), Request(key, 1, MINUTE, true)];
            Ordered(rs) && Within(Log(rs, key, true), 0, MINUTE) == 2
  {
    var a, b := Request(key, 1, 0, true), Request(key, 1, MINUTE, true);
    var rs := [a, b];
    assert rs[..1] == [a] && [a][..0] == [];
    assert Log([a], key, true) == [0];
    assert RatesAfter([a], true) == map[key := Window(0, 1)];
    assert Admitted(rs, 1, true);
    assert Log(rs, key, true) == [0] + [MINUTE];
    WithinSnoc([0], MINUTE, 0, MINUTE);
    WithinSnoc([], 0, 0, MINUTE);
    assert [] + [0] == [0];
  }
}
