/**
 The process supervisor: reconcile, stopManagedWorker and startManagedWorker of
 internal/app/service_supervisor.go. When workers finish, whether a stop is in time and when the
 supervisor's own context ends is the world's business: it is an input, and Elapse lets it happen.
 */
module Supervisor {
  import opened Prelude

  /** A profile directory; `signature` is the digest of its file. */
  datatype Profile = Profile(instance: string, role: string, signature: string, disabled: bool, invalid: bool)

  /** The map entry of a worker; `id` numbers the workers in the order they were started. */
  datatype Worker = Worker(profile: Profile, id: nat)

  type Workers = map<string, Worker>

  /**
   inTime(k)   - a stop of worker k made in this scan sees it finish before the timeout
   finishes(t) - the workers that finish by themselves at moment t
   alive(t)    - the context survives moment t
   */
  datatype World = World(inTime: nat -> bool, finishes: nat -> set<nat>, alive: nat -> bool)

  ghost predicate AliveThrough(w: World, from: nat, to: nat) {
    forall t :: from <= t < to ==> w.alive(t)
  }

  /** Worker k finished by itself between two moments, or was stopped in time. */
  ghost predicate Ended(w: World, stops: set<nat>, from: nat, to: nat, k: nat) {
    (k in stops && w.inTime(k)) || exists t :: from <= t < to && k in w.finishes(t)
  }

  ghost predicate DistinctInstances(profiles: seq<Profile>) {
    forall i, j :: 0 <= i < j < |profiles| ==> profiles[i].instance != profiles[j].instance
  }

  ghost predicate Wanted(profiles: seq<Profile>, instance: string) {
    exists i :: 0 <= i < |profiles| && profiles[i].instance == instance
  }

  ghost predicate SameAt(a: Workers, b: Workers, instance: string) {
    (instance in a <==> instance in b) && (instance in a ==> a[instance] == b[instance])
  }

  /** What one profile asks for, given the workers before the scan and those that had finished by then. */
  ghost predicate Satisfied(p: Profile, workers: Workers, before: Workers, finished: set<nat>) {
    if p.invalid then SameAt(workers, before, p.instance)
    else if p.disabled then p.instance !in workers
    else
      p.instance in workers && workers[p.instance].profile.signature == p.signature && workers[p.instance].id !in finished &&
      (SameAt(workers, before, p.instance) || workers[p.instance].profile == p)
  }

  /** The instance still has the worker it had, because that worker's stop was not in time. */
  ghost predicate Late(instance: string, workers: Workers, before: Workers, w: World) {
    instance in before && SameAt(workers, before, instance) && !w.inTime(before[instance].id)
  }

  /** What a scan makes of one profile. */
  ghost predicate Handled(p: Profile, workers: Workers, before: Workers, finished: set<nat>, w: World) {
    Satisfied(p, workers, before, finished) || Late(p.instance, workers, before, w)
  }

  /** The workers are those of the enabled valid profiles, and those of invalid ones stay as they were. */
  ghost predicate Matches(profiles: seq<Profile>, workers: Workers, before: Workers, finished: set<nat>) {
    && (forall instance :: instance in workers ==> Wanted(profiles, instance))
    && (forall i :: 0 <= i < |profiles| ==> Satisfied(profiles[i], workers, before, finished))
  }

  /** Nothing to do: the workers match and none that is wanted has finished. */
  ghost predicate Quiet(profiles: seq<Profile>, workers: Workers, done: set<nat>) {
    Matches(profiles, workers, workers, done)
  }

  predicate NoCoordinator(profiles: seq<Profile>) {
    forall i :: 0 <= i < |profiles| ==> profiles[i].role != "coordinator"
  }

  predicate Enabled(p: Profile) {
    !p.invalid && !p.disabled
  }

  /** A running worker of the right signature; `done` holds those that have finished. */
  ghost predicate Runs(p: Profile, workers: Workers, done: set<nat>) {
    p.instance in workers && workers[p.instance].profile.signature == p.signature && workers[p.instance].id !in done
  }

  /** Workers that match, and have not finished since, leave the next scan of the same profiles nothing to do. */
  lemma MatchedIsQuiet(profiles: seq<Profile>, workers: Workers, before: Workers, finished: set<nat>, done: set<nat>)
    requires Matches(profiles, workers, before, finished)
    requires forall i :: 0 <= i < |profiles| && Enabled(profiles[i]) && profiles[i].instance in workers ==>
               workers[profiles[i].instance].id !in done
    ensures Quiet(profiles, workers, done)
  {
  }

  // ----- bookkeeping of the second loop -----

  /** Unwanted workers are left only where a stop was not in time. */
  ghost predicate OnlyLateUnwanted(profiles: seq<Profile>, workers: Workers, before: Workers, w: World) {
    forall instance :: instance in workers && !Wanted(profiles, instance) ==> Late(instance, workers, before, w)
  }

  ghost predicate FirstHandled(profiles: seq<Profile>, k: nat, workers: Workers, before: Workers, finished: set<nat>, w: World) {
    forall j :: 0 <= j < k && j < |profiles| ==> Handled(profiles[j], workers, before, finished, w)
  }

  /** The profiles from `k` on, and the invalid ones, still have the workers they had. */
  ghost predicate Untouched(profiles: seq<Profile>, k: nat, workers: Workers, before: Workers) {
    forall j :: 0 <= j < |profiles| && (k <= j || profiles[j].invalid) ==> SameAt(workers, before, profiles[j].instance)
  }

  /** Running workers of the right signature are the ones from before. */
  ghost predicate RunningKept(profiles: seq<Profile>, workers: Workers, before: Workers, done: set<nat>) {
    forall j :: 0 <= j < |profiles| && Enabled(profiles[j]) && Runs(profiles[j], before, done) ==>
      SameAt(workers, before, profiles[j].instance)
  }

  lemma OneApplied(profiles: seq<Profile>, k: nat, prev: Workers, now: Workers, before: Workers, finished: set<nat>, w: World)
    requires DistinctInstances(profiles) && k < |profiles| && Untouched(profiles, k, prev, before)
    requires forall instance :: instance != profiles[k].instance ==> SameAt(now, prev, instance)
    requires profiles[k].invalid ==> SameAt(now, prev, profiles[k].instance)
    requires Handled(profiles[k], now, prev, finished, w)
    ensures Untouched(profiles, k + 1, now, before)
    ensures FirstHandled(profiles, k, prev, before, finished, w) ==> FirstHandled(profiles, k + 1, now, before, finished, w)
  {
    assert SameAt(prev, before, profiles[k].instance);
    forall j | 0 <= j < |profiles| && j != k ensures SameAt(now, prev, profiles[j].instance) {
    }
  }

  lemma UnwantedUnchanged(profiles: seq<Profile>, k: nat, prev: Workers, now: Workers, before: Workers, w: World)
    requires k < |profiles| && OnlyLateUnwanted(profiles, prev, before, w)
    requires forall instance :: instance != profiles[k].instance ==> SameAt(now, prev, instance)
    ensures OnlyLateUnwanted(profiles, now, before, w)
  {
    forall instance | instance in now && !Wanted(profiles, instance) ensures Late(instance, now, before, w) {
      assert profiles[k].instance != instance;
      assert SameAt(now, prev, instance) && Late(instance, prev, before, w);
    }
  }

  lemma RunningStay(profiles: seq<Profile>, k: nat, prev: Workers, now: Workers, before: Workers, was: set<nat>, done: set<nat>)
    requires DistinctInstances(profiles) && k < |profiles| && Untouched(profiles, k, prev, before)
    requires RunningKept(profiles, prev, before, was) && was <= done
    requires forall instance :: instance != profiles[k].instance ==> SameAt(now, prev, instance)
    requires Enabled(profiles[k]) && Runs(profiles[k], prev, done) ==> SameAt(now, prev, profiles[k].instance)
    ensures RunningKept(profiles, now, before, done)
  {
    assert SameAt(prev, before, profiles[k].instance);
    forall j | 0 <= j < |profiles| && Enabled(profiles[j]) && Runs(profiles[j], before, done)
      ensures SameAt(now, before, profiles[j].instance)
    {
      assert Runs(profiles[j], before, was);
      if j != k {
        assert profiles[j].instance != profiles[k].instance;
        assert SameAt(now, prev, profiles[j].instance);
      }
    }
  }

  class Manager {
    var workers: Workers
    var rejected: map<string, string>
    /** started[k] is the instance of worker k. */
    var started: seq<string>
    var canceled: set<nat>
    var done: set<nat>
    var live: bool
    var moment: nat

    /** Every worker that has not finished is the one the map holds for its instance. */
    ghost predicate Valid()
      reads this
    {
      && (forall k :: k in done ==> k < |started|)
      && (forall k: nat :: k < |started| && k !in done ==> started[k] in workers && workers[started[k]].id == k)
      && (forall instance :: instance in workers ==>
            workers[instance].id < |started| && started[workers[instance].id] == instance &&
            workers[instance].profile.instance == instance)
    }

    /**
     Time has passed since: the context lives exactly if the world let it, and a worker finished
     only by itself or by a stop in time.
     */
    ghost predicate Since(w: World, finished: set<nat>, stops: set<nat>, wasLive: bool, from: nat)
      reads this
    {
      && finished <= done && stops <= canceled && from <= moment
      && (live <==> wasLive && AliveThrough(w, from, moment))
      && (forall k :: k in done && k !in finished ==> Ended(w, canceled, from, moment, k))
    }

    constructor ()
      ensures Valid() && workers == map[] && live
    {
      workers, rejected, started, canceled, done, live, moment := map[], map[], [], {}, {}, true, 0;
    }

    /** Hence no instance ever has two unfinished workers. */
    lemma OnePerInstance(j: nat, k: nat)
      requires Valid() && j < |started| && k < |started| && j !in done && k !in done && started[j] == started[k]
      ensures j == k
    {
    }

    /** One moment of the world: some workers finish, and the context may end. */
    method Elapse(w: World)
      requires Valid()
      modifies this`done, this`live, this`moment
      ensures Valid() && Since(w, old(done), old(canceled), old(live), old(moment)) && moment == old(moment) + 1
    {
      done := done + set k | k in w.finishes(moment) && k < |started|;
      live := live && w.alive(moment);
      moment := moment + 1;
    }

    /** stopManagedWorker: true exactly if the worker finished in time. */
    method Stop(worker: Worker, w: World) returns (stopped: bool)
      requires Valid() && worker.id < |started|
      modifies this`canceled, this`done, this`live, this`moment
      ensures Valid() && Since(w, old(done), old(canceled), old(live), old(moment))
      ensures canceled == old(canceled) + {worker.id}
      ensures stopped == w.inTime(worker.id) && (stopped ==> worker.id in done)
    {
      canceled := canceled + {worker.id};
      Elapse(w);
      stopped := w.inTime(worker.id);
      if stopped {
        done := done + {worker.id};
      }
    }

    /** startManagedWorker into a free place of the map. */
    method Start(profile: Profile)
      requires Valid() && profile.instance !in workers
      modifies this`workers, this`started
      ensures Valid() && started == old(started) + [profile.instance]
      ensures workers == old(workers)[profile.instance := Worker(profile, |old(started)|)]
    {
      workers := workers[profile.instance := Worker(profile, |started|)];
      started := started + [profile.instance];
    }

    /** Drop a finished worker from the map. */
    method Forget(instance: string)
      requires Valid() && instance in workers && workers[instance].id in done
      modifies this`workers
      ensures Valid() && workers == old(workers) - {instance}
    {
      workers := workers - {instance};
    }

    method StopAndForget(instance: string, w: World) returns (stopped: bool)
      requires Valid() && instance in workers
      modifies this`workers, this`canceled, this`done, this`live, this`moment
      ensures Valid() && Since(w, old(done), old(canceled), old(live), old(moment))
      ensures stopped == w.inTime(old(workers[instance]).id)
      ensures workers == if stopped then old(workers) - {instance} else old(workers)
    {
      stopped := Stop(workers[instance], w);
      if stopped {
        Forget(instance);
      }
    }

    method IsWanted(profiles: seq<Profile>, instance: string) returns (wanted: bool)
      ensures wanted == Wanted(profiles, instance)
    {
      for i := 0 to |profiles|
        invariant forall j :: 0 <= j < i ==> profiles[j].instance != instance
      {
        if profiles[i].instance == instance {
          return true;
        }
      }
      wanted := false;
    }

    /** The first loop of reconcile: a worker without a profile goes exactly if its stop is in time. */
    method StopUnwanted(profiles: seq<Profile>, w: World)
      requires Valid()
      modifies this`workers, this`canceled, this`done, this`live, this`moment
      ensures Valid() && Since(w, old(done), old(canceled), old(live), old(moment))
      ensures UnwantedSoFar(profiles, old(workers), workers, {}, w)
      ensures AllWanted(profiles, old(workers)) ==> workers == old(workers) && canceled == old(canceled)
    {
      var remaining := workers.Keys;
      ghost var before, stops := workers, canceled;
      while remaining != {}
        invariant Valid() && Since(w, old(done), old(canceled), old(live), old(moment))
        invariant UnwantedSoFar(profiles, before, workers, remaining, w)
        invariant AllWanted(profiles, before) ==> workers == before && canceled == stops
        decreases |remaining|
      {
        var instance :| instance in remaining;
        StopIfUnwanted(profiles, instance, before, remaining, w);
        remaining := remaining - {instance};
      }
    }

    /** One turn of that loop. */
    method StopIfUnwanted(profiles: seq<Profile>, instance: string, ghost before: Workers, ghost remaining: set<string>, w: World)
      requires Valid() && instance in remaining && UnwantedSoFar(profiles, before, workers, remaining, w)
      modifies this`workers, this`canceled, this`done, this`live, this`moment
      ensures Valid() && Since(w, old(done), old(canceled), old(live), old(moment))
      ensures UnwantedSoFar(profiles, before, workers, remaining - {instance}, w)
      ensures Wanted(profiles, instance) ==> workers == old(workers) && canceled == old(canceled)
    {
      assert SameAt(workers, before, instance);
      Elapse(w);
      var wanted := IsWanted(profiles, instance);
      if !wanted {
        var _ := StopAndForget(instance, w);
      }
      OneUnwanted(profiles, before, old(workers), workers, remaining, instance, w);
    }

    /** The body of the second loop. */
    method Apply(p: Profile, w: World)
      requires Valid()
      modifies this
      ensures Valid() && Since(w, old(done), old(canceled), old(live), old(moment))
      ensures forall instance :: instance != p.instance ==> SameAt(workers, old(workers), instance)
      ensures Handled(p, workers, old(workers), old(done), w)
      ensures p.invalid ==> SameAt(workers, old(workers), p.instance)
      ensures Enabled(p) && Runs(p, old(workers), done) ==> SameAt(workers, old(workers), p.instance)
      ensures p.invalid ==> p.instance in rejected && rejected[p.instance] == p.signature
      ensures !p.invalid ==> p.instance !in rejected
      ensures p.invalid || (p.disabled && p.instance !in old(workers)) || (Enabled(p) && Runs(p, old(workers), done)) ==>
                workers == old(workers) && canceled == old(canceled) && started == old(started)
    {
      Elapse(w);
      if p.invalid {
        if p.instance !in rejected || rejected[p.instance] != p.signature {
          rejected := rejected[p.instance := p.signature];
        }
        return;
      }
      rejected := rejected - {p.instance};
      if p.disabled {
        if p.instance in workers {
          var _ := StopAndForget(p.instance, w);
        }
        return;
      }
      Renew(p, w);
    }

    /** An enabled valid profile: keep its running worker, or replace it once it has stopped. */
    method Renew(p: Profile, w: World)
      requires Valid() && Enabled(p)
      modifies this`workers, this`started, this`canceled, this`done, this`live, this`moment
      ensures Valid() && Since(w, old(done), old(canceled), old(live), old(moment))
      ensures forall instance :: instance != p.instance ==> SameAt(workers, old(workers), instance)
      ensures Runs(p, workers, old(done)) || Late(p.instance, workers, old(workers), w)
      ensures SameAt(workers, old(workers), p.instance) || (p.instance in workers && workers[p.instance].profile == p)
      ensures Runs(p, old(workers), done) ==>
                workers == old(workers) && canceled == old(canceled) && started == old(started)
    {
      if p.instance in workers {
        var current := workers[p.instance];
        if current.profile.signature == p.signature && current.id !in done {
          return;
        }
        var stopped := StopAndForget(p.instance, w);
        if !stopped {
          return;
        }
      }
      Start(p);
    }

    /**
     One scan. Every profile and every worker without one is dealt with, except where a stop this
     scan had to make was not in time, or the context ended while a coordinator was starting.
     */
    method Reconcile(profiles: seq<Profile>, w: World)
      requires Valid() && DistinctInstances(profiles)
      modifies this
      ensures Valid() && Since(w, old(done), old(canceled), old(live), old(moment))
      ensures OnlyLateUnwanted(profiles, workers, old(workers), w)
      ensures live || NoCoordinator(profiles) ==> FirstHandled(profiles, |profiles|, workers, old(workers), old(done), w)
      ensures forall i :: 0 <= i < |profiles| && profiles[i].invalid ==> SameAt(workers, old(workers), profiles[i].instance)
      ensures RunningKept(profiles, workers, old(workers), done)
      ensures old(live) && (forall t :: w.alive(t)) && (forall k :: w.inTime(k)) ==>
                Matches(profiles, workers, old(workers), old(done))
      ensures Quiet(profiles, old(workers), done) ==>
                workers == old(workers) && started == old(started) && canceled == old(canceled)
    {
      ghost var before, finished := workers, done;
      StopUnwanted(profiles, w);
      AllDealtWith(profiles, before, workers, w);
      assert forall i :: 0 <= i < |profiles| ==> Wanted(profiles, profiles[i].instance);
      for k := 0 to |profiles|
        invariant Valid() && Since(w, finished, old(canceled), old(live), old(moment))
        invariant OnlyLateUnwanted(profiles, workers, before, w)
        invariant FirstHandled(profiles, k, workers, before, finished, w)
        invariant Untouched(profiles, k, workers, before)
        invariant RunningKept(profiles, workers, before, done)
        invariant Quiet(profiles, before, done) ==>
                    workers == before && started == old(started) && canceled == old(canceled)
      {
        var goOn := ApplyAt(profiles, k, before, finished, w);
        if !goOn {
          return;
        }
      }
    }

    /** One turn of the second loop; after starting a coordinator the scan ends if the context did. */
    method ApplyAt(profiles: seq<Profile>, k: nat, ghost before: Workers, ghost finished: set<nat>, w: World) returns (goOn: bool)
      requires Valid() && DistinctInstances(profiles) && k < |profiles| && Untouched(profiles, k, workers, before)
      requires finished <= done && OnlyLateUnwanted(profiles, workers, before, w) && RunningKept(profiles, workers, before, done)
      modifies this
      ensures Valid() && Since(w, old(done), old(canceled), old(live), old(moment)) && (!goOn ==> !live && profiles[k].role == "coordinator")
      ensures Untouched(profiles, k + 1, workers, before) && OnlyLateUnwanted(profiles, workers, before, w)
      ensures RunningKept(profiles, workers, before, done)
      ensures FirstHandled(profiles, k, old(workers), before, finished, w) ==>
                FirstHandled(profiles, k + 1, workers, before, finished, w)
      ensures profiles[k].invalid || (profiles[k].disabled && profiles[k].instance !in old(workers)) ||
              (Enabled(profiles[k]) && Runs(profiles[k], old(workers), done)) ==>
                workers == old(workers) && canceled == old(canceled) && started == old(started)
    {
      var p, count := profiles[k], |started|;
      Apply(p, w);
      goOn := true;
      HandledSince(p, workers, old(workers), finished, old(done), w);
      OneApplied(profiles, k, old(workers), workers, before, finished, w);
      UnwantedUnchanged(profiles, k, old(workers), workers, before, w);
      RunningStay(profiles, k, old(workers), workers, before, old(done), done);
      if |started| > count && p.role == "coordinator" {
        ghost var was := done;
        Elapse(w);
        RunningLess(profiles, workers, before, was, done);
        goOn := live;
      }
    }

    /** Two scans of the same profiles: with every stop in time and no worker finishing, the second does nothing. */
    method ScanTwice(profiles: seq<Profile>, first: World, second: World) returns (ghost between: Workers, ghost acted: bool)
      requires Valid() && DistinctInstances(profiles) && live
      requires (forall t :: first.alive(t)) && (forall k :: first.inTime(k))
      modifies this
      ensures Valid() && Matches(profiles, between, old(workers), old(done))
      ensures (forall i :: 0 <= i < |profiles| && Enabled(profiles[i]) && profiles[i].instance in between ==>
                 between[profiles[i].instance].id !in done) ==> workers == between && !acted
    {
      Reconcile(profiles, first);
      between := workers;
      ghost var count, stops := started, canceled;
      Reconcile(profiles, second);
      acted := started != count || canceled != stops;
      if forall i :: 0 <= i < |profiles| && Enabled(profiles[i]) && profiles[i].instance in between ==>
           between[profiles[i].instance].id !in done {
        MatchedIsQuiet(profiles, between, old(workers), old(done), done);
      }
    }

    /** The end of superviseProfiles: cancelling the map's workers reaches every unfinished one. */
    method CancelAll()
      requires Valid()
      modifies this`canceled
      ensures Valid()
      ensures forall k: nat :: k < |started| && k !in done ==> k in canceled
    {
      var remaining := workers.Keys;
      while remaining != {}
        invariant remaining <= workers.Keys
        invariant forall instance :: instance in workers && instance !in remaining ==> workers[instance].id in canceled
        decreases |remaining|
      {
        var instance :| instance in remaining;
        remaining := remaining - {instance};
        canceled := canceled + {workers[instance].id};
      }
    }
  }

  ghost predicate AllWanted(profiles: seq<Profile>, workers: Workers) {
    forall instance :: instance in workers ==> Wanted(profiles, instance)
  }

  /** The first loop has dealt with every instance outside `remaining`. */
  ghost predicate UnwantedSoFar(profiles: seq<Profile>, before: Workers, workers: Workers, remaining: set<string>, w: World) {
    && remaining <= before.Keys && workers.Keys <= before.Keys
    && (forall instance :: Wanted(profiles, instance) || instance in remaining ==> SameAt(workers, before, instance))
    && (forall instance :: instance in before && instance !in remaining && !Wanted(profiles, instance) ==>
          Removed(instance, workers, before, w))
  }

  lemma OneUnwanted(profiles: seq<Profile>, before: Workers, prev: Workers, now: Workers, remaining: set<string>,
                    instance: string, w: World)
    requires UnwantedSoFar(profiles, before, prev, remaining, w) && instance in remaining && now.Keys <= prev.Keys
    requires forall other :: other != instance ==> SameAt(now, prev, other)
    requires if Wanted(profiles, instance) then now == prev else Removed(instance, now, before, w)
    ensures UnwantedSoFar(profiles, before, now, remaining - {instance}, w)
  {
    forall other | Wanted(profiles, other) || other in remaining - {instance} ensures SameAt(now, before, other) {
      assert SameAt(prev, before, other);
      assert other == instance || SameAt(now, prev, other);
    }
    forall other | other in before && other !in remaining - {instance} && !Wanted(profiles, other)
      ensures Removed(other, now, before, w)
    {
      if other != instance {
        assert Removed(other, prev, before, w) && SameAt(now, prev, other);
      }
    }
  }

  lemma AllDealtWith(profiles: seq<Profile>, before: Workers, workers: Workers, w: World)
    requires UnwantedSoFar(profiles, before, workers, {}, w)
    ensures OnlyLateUnwanted(profiles, workers, before, w)
  {
    forall instance | instance in workers && !Wanted(profiles, instance) ensures Late(instance, workers, before, w) {
      assert Removed(instance, workers, before, w);
    }
  }

  /** An unwanted worker is gone exactly if its stop was in time. */
  ghost predicate Removed(instance: string, workers: Workers, before: Workers, w: World)
    requires instance in before
  {
    if w.inTime(before[instance].id) then instance !in workers else SameAt(workers, before, instance)
  }

  lemma HandledSince(p: Profile, now: Workers, prev: Workers, finished: set<nat>, done: set<nat>, w: World)
    requires Handled(p, now, prev, done, w) && finished <= done
    ensures Handled(p, now, prev, finished, w)
  {
  }

  lemma RunningLess(profiles: seq<Profile>, workers: Workers, before: Workers, was: set<nat>, done: set<nat>)
    requires RunningKept(profiles, workers, before, was) && was <= done
    ensures RunningKept(profiles, workers, before, done)
  {
    forall j | 0 <= j < |profiles| && Enabled(profiles[j]) && Runs(profiles[j], before, done)
      ensures Runs(profiles[j], before, was)
    {
    }
  }
}
