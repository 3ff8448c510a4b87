/**
  The paired handoff of the front ends: a saga over systemd units that either completes,
  stops in front of an uncertain publication, or undoes every unit it touched in reverse
  order. The pair is generalised to any list of distinct profiles.

  Every privileged command may fail, and one that fails may still have taken effect. The
  deployment lock is held, so nothing else changes the units meanwhile.
 */
module FrontendHandoff {
  import opened Wrappers

  type Profile = string

  datatype Version = Original | Candidate

  /** What is on disk, what systemd has loaded, and what answers on the port. */
  datatype Unit = Unit(installed: Version, loaded: Version, running: Option<Version>)

  datatype Op = Mark | Activate(profile: Profile) | VerifyTarget | Publish | Restore(profile: Profile) | VerifyRestored

  datatype Attempt = Attempt(op: Op, ok: bool)

  datatype Outcome =
    | Done
    | Uncertain                           // a publication exists although publishing failed
    | RolledBack(error: Op)               // the original failure goes on to the caller
    | Unverified(failures: seq<string>)

  predicate Distinct(profiles: seq<Profile>) {
    forall i, j :: 0 <= i < j < |profiles| ==> profiles[i] != profiles[j]
  }

  // ---- what a run attempts ----

  /** The forward steps. */
  function Plan(profiles: seq<Profile>): seq<Op> {
    [Mark] + seq(|profiles|, i requires 0 <= i < |profiles| => Activate(profiles[i])) + [VerifyTarget, Publish]
  }

  /** The profiles touched when the step after n successful ones fails: a profile counts
      as touched before its activation is tried. */
  function Touched(profiles: seq<Profile>, n: nat): seq<Profile> {
    profiles[..if n <= |profiles| then n else |profiles|]
  }

  function Restores(touched: seq<Profile>): (ops: seq<Op>)
    ensures |ops| == |touched|
  {
    seq(|touched|, i requires 0 <= i < |touched| => Restore(touched[|touched| - 1 - i]))
  }

  function Succeeded(ops: seq<Op>): seq<Attempt> {
    seq(|ops|, i requires 0 <= i < |ops| => Attempt(ops[i], true))
  }

  function Ops(log: seq<Attempt>): seq<Op> {
    seq(|log|, i requires 0 <= i < |log| => log[i].op)
  }

  function NameOf(op: Op): string { if op.Restore? then op.profile else "pair_or_gateway" }

  function Failures(log: seq<Attempt>): seq<string>
    decreases |log|
  {
    if log == [] then []
    else Failures(log[..|log| - 1]) + (if log[|log| - 1].ok then [] else [NameOf(log[|log| - 1].op)])
  }

  /** The run did n forward steps and ended like this. */
  predicate Trail(profiles: seq<Profile>, log: seq<Attempt>, n: nat, outcome: Outcome) {
    var plan := Plan(profiles);
    if n >= |plan| then outcome == Done && log == Succeeded(plan)
    else
      && |log| > n && log[..n] == Succeeded(plan[..n]) && log[n] == Attempt(plan[n], false)
      && if outcome == Uncertain then plan[n] == Publish && |log| == n + 1
         else
           && Ops(log[n + 1..]) == Restores(Touched(profiles, n)) + [VerifyRestored]
           && outcome == Verdict(plan[n], log[n + 1..])
  }

  function Verdict(error: Op, undo: seq<Attempt>): Outcome {
    if Failures(undo) == [] then RolledBack(error) else Unverified(Failures(undo))
  }

  lemma {:induction false} FailuresAreTheFailed(log: seq<Attempt>)
    ensures forall name :: name in Failures(log) <==> exists a :: a in log && !a.ok && NameOf(a.op) == name
    ensures Failures(log) == [] <==> forall a :: a in log ==> a.ok
    decreases |log|
  {
    if log != [] {
      var init, last := log[..|log| - 1], log[|log| - 1];
      FailuresAreTheFailed(init);
      assert log == init + [last];
      assert forall a :: a in log <==> a in init || a == last;
    }
  }

  /** Once a step other than an unexplained publication failed, each touched profile is
      restored exactly once, the later activated one first, and no other is. */
  lemma TouchedAreRestoredOnce(profiles: seq<Profile>, log: seq<Attempt>, n: nat, outcome: Outcome, i: nat)
    requires Distinct(profiles) && Trail(profiles, log, n, outcome) && !outcome.Done? && !outcome.Uncertain?
    requires i < |profiles|
    ensures var undo := log[n + 1..]; var t := |Touched(profiles, n)|;
            && |undo| == t + 1
            && (i < t ==> undo[t - 1 - i].op == Restore(profiles[i]))
            && (forall k :: 0 <= k < |undo| && undo[k].op == Restore(profiles[i]) ==> i < t && k == t - 1 - i)
  {
    var undo, touched := log[n + 1..], Touched(profiles, n);
    var t := |touched|;
    assert |Ops(undo)| == |undo|;
    forall k | 0 <= k < t ensures undo[k].op == Restore(profiles[t - 1 - k]) {
      assert Ops(undo)[k] == Restores(touched)[k];
    }
    assert undo[t].op == Ops(undo)[t];
    assert i < t ==> undo[t - 1 - i].op == Restore(profiles[t - 1 - (t - 1 - i)]);
  }

  /** A failure before anything was touched restores nothing, but is still verified. */
  lemma MarkFailureRestoresNothing(profiles: seq<Profile>, log: seq<Attempt>, outcome: Outcome)
    requires Trail(profiles, log, 0, outcome)
    ensures Ops(log) == [Mark, VerifyRestored]
    ensures outcome == if log[1].ok then RolledBack(Mark) else Unverified(["pair_or_gateway"])
  {
    assert Plan(profiles)[0] == Mark;
    assert Restores(Touched(profiles, 0)) == [];
    assert |Ops(log[1..])| == 1 && log[1..][0].op == Ops(log[1..])[0];
    assert log[1..] == [log[1]] && Failures(log[1..][..0]) == [];
    assert Ops(log) == [log[0].op, log[1].op];
  }

  lemma LogGrows(plan: seq<Op>, n: nat)
    requires n < |plan|
    ensures Succeeded(plan[..n]) + [Attempt(plan[n], true)] == Succeeded(plan[..n + 1])
  {
  }

  lemma LastAttempt(log: seq<Attempt>, a: Attempt)
    ensures Ops(log + [a]) == Ops(log) + [a.op]
    ensures Failures(log + [a]) == Failures(log) + if a.ok then [] else [NameOf(a.op)]
  {
    assert (log + [a])[..|log|] == log;
  }

  lemma NothingUndone(touched: seq<Profile>)
    ensures Ops([]) == [] == Restores(touched)[..0] && Failures([]) == []
  {
  }

  lemma TakeOneMore<T>(s: seq<T>, k: nat)
    requires k < |s|
    ensures s[..k] + [s[k]] == s[..k + 1]
  {
  }

  lemma RestoreAt(touched: seq<Profile>, k: nat)
    requires k < |touched|
    ensures Restores(touched)[k] == Restore(touched[|touched| - 1 - k])
  {
  }

  lemma UndoGrows(touched: seq<Profile>, undo: seq<Attempt>, a: Attempt)
    requires |undo| < |touched| && Ops(undo) == Restores(touched)[..|undo|]
    requires a.op == Restore(touched[|touched| - 1 - |undo|])
    ensures Ops(undo + [a]) == Restores(touched)[..|undo| + 1]
    ensures Failures(undo + [a]) == Failures(undo) + if a.ok then [] else [NameOf(a.op)]
  {
    hide *;
    var all, k := Restores(touched), |undo|;
    RestoreAt(touched, k);
    LastAttempt(undo, a);
    TakeOneMore(all, k);
  }

  // ---- the host ----

  class Host {
    const profiles: seq<Profile>
    const identified: Profile      // its candidate reads an identity file
    const fronted: Profile         // the gateway stands in front of it
    var units: map<Profile, Unit>
    var gateway: bool
    var activated: bool            // the identity of this activation is written
    var marker: bool
    var published: bool
    var faults: nat                // how many more commands may fail
    ghost var log: seq<Attempt>

    constructor (profiles: seq<Profile>, identified: Profile, fronted: Profile, units: map<Profile, Unit>,
        gateway: bool, marker: bool, faults: nat)
      requires Distinct(profiles) && forall p :: p in profiles ==> p in units
      ensures Valid() && log == [] && !activated && !published
      ensures this.profiles == profiles && this.identified == identified && this.fronted == fronted
      ensures this.units == units && this.gateway == gateway && this.marker == marker && this.faults == faults
    {
      this.profiles, this.identified, this.fronted := profiles, identified, fronted;
      this.units, this.gateway, this.marker, this.faults := units, gateway, marker, faults;
      activated, published, log := false, false, [];
    }

    /** A command fails only while there are faults left, and uses one up. */
    method Fails() returns (fails: bool)
      modifies this`faults
      ensures faults == if fails then old(faults) - 1 else old(faults)
    {
      fails := *;
      fails := fails && faults > 0;
      if fails { faults := faults - 1; }
    }

    /** The step succeeded, or a fault was used up. */
    twostate predicate FaultOnly(ok: bool)
      reads this
    {
      faults <= old(faults) && (!ok ==> faults < old(faults))
    }

    predicate Valid()
      reads this
    {
      Distinct(profiles) && forall p :: p in profiles ==> p in units
    }

    predicate Settled(p: Profile, v: Version)
      reads this
    {
      p in units && units[p] == Unit(v, v, Some(v))
    }

    predicate AllSettled(v: Version)
      reads this
    {
      forall p :: p in profiles ==> Settled(p, v)
    }

    // ---- commands ----

    method Stop(p: Profile) returns (ok: bool)
      requires Valid() && p in profiles
      modifies this`units, this`gateway, this`faults
      ensures Valid()
      ensures units == old(units)[p := old(units[p]).(running := None)] || (!ok && units == old(units))
      ensures p != fronted ==> gateway == old(gateway)
      ensures FaultOnly(ok)
    {
      var fails := Fails();
      ok := !fails;
      var effective: bool := *;
      if ok || effective {
        units := units[p := units[p].(running := None)];
        if p == fronted { gateway := *; }
      } else {
        assert units == old(units);
      }
    }

    method Install(p: Profile, v: Version) returns (ok: bool)
      requires Valid() && p in profiles
      modifies this`units, this`faults
      ensures Valid()
      ensures units == old(units)[p := old(units[p]).(installed := v)] || (!ok && units == old(units))
      ensures FaultOnly(ok)
    {
      var fails := Fails();
      ok := !fails;
      var effective: bool := *;
      if ok || effective {
        units := units[p := units[p].(installed := v)];
      }
    }

    /** Loads every unit from disk. */
    method Reload() returns (ok: bool)
      requires Valid()
      modifies this`units, this`faults
      ensures Valid() && units.Keys == old(units.Keys)
      ensures (forall p :: p in units ==> units[p] == old(units[p]).(loaded := old(units[p]).installed))
          || (!ok && units == old(units))
      ensures FaultOnly(ok)
    {
      var fails := Fails();
      ok := !fails;
      var effective: bool := *;
      if ok || effective {
        units := map p | p in units :: units[p].(loaded := units[p].installed);
      }
    }

    /** Starts what is loaded; a unit that runs already is left alone. */
    method Start(p: Profile) returns (ok: bool)
      requires Valid() && p in profiles
      modifies this`units, this`faults
      ensures Valid()
      ensures var u := old(units[p]);
              units == old(units)[p := if u.running.None? then u.(running := Some(u.loaded)) else u]
                || (!ok && units == old(units))
      ensures FaultOnly(ok)
    {
      var fails := Fails();
      ok := !fails;
      var effective: bool := *;
      if ok || effective {
        units := units[p := if units[p].running.None? then units[p].(running := Some(units[p].loaded)) else units[p]];
      }
    }

    /** Asks the port for the release it serves. */
    method Probe(p: Profile, v: Version) returns (ok: bool)
      requires Valid() && p in profiles
      modifies this`faults
      ensures ok ==> units[p].running == Some(v)
      ensures units[p].running == Some(v) ==> FaultOnly(ok)
      ensures faults <= old(faults)
    {
      var fails := Fails();
      ok := !fails;
      ok := ok && units[p].running == Some(v);
    }

    method StartGateway() returns (ok: bool)
      modifies this`gateway, this`faults
      ensures ok ==> gateway
      ensures FaultOnly(ok)
    {
      var fails := Fails();
      ok := !fails;
      if ok { gateway := true; } else { gateway := *; }
    }

    method WriteIdentity() returns (ok: bool)
      modifies this`activated, this`faults
      ensures ok ==> activated
      ensures old(activated) ==> activated
      ensures FaultOnly(ok)
    {
      var fails := Fails();
      ok := !fails;
      if ok { activated := true; }
    }

    // ---- the steps of the saga ----

    /** From any state of the unit: success means that the wanted release is installed,
        loaded and answering. Other units are at most reloaded. */
    method Switch(p: Profile, v: Version) returns (ok: bool)
      requires Valid() && p in profiles
      modifies this`units, this`gateway, this`activated, this`faults
      ensures Valid()
      ensures ok ==> Settled(p, v) && (p == fronted ==> gateway)
      ensures ok && p == identified && v == Candidate ==> activated
      ensures old(activated) ==> activated
      ensures forall q :: q in profiles && q != p ==>
                units[q] == old(units[q]) || units[q] == old(units[q]).(loaded := old(units[q]).installed)
      ensures FaultOnly(ok) && (p != fronted ==> gateway == old(gateway))
    {
      ok := Replace(p, v);
      if !ok { return; }
      if p == identified && v == Candidate {
        ok := WriteIdentity();
        if !ok { return; }
      }
      ok := Start(p);
      if !ok { return; }
      ok := Probe(p, v);
      if !ok { return; }
      if p == fronted {
        ok := StartGateway();
      }
    }

    /** Stops the unit and puts the other release in its place. */
    method Replace(p: Profile, v: Version) returns (ok: bool)
      requires Valid() && p in profiles
      modifies this`units, this`gateway, this`faults
      ensures Valid()
      ensures ok ==> units[p] == Unit(v, v, None)
      ensures forall q :: q in profiles && q != p ==>
                units[q] == old(units[q]) || units[q] == old(units[q]).(loaded := old(units[q]).installed)
      ensures FaultOnly(ok) && (p != fronted ==> gateway == old(gateway))
    {
      ok := Stop(p);
      if !ok { return; }
      ok := Install(p, v);
      if !ok { return; }
      ok := Reload();
    }

    method MarkStarted() returns (ok: bool)
      modifies this`marker, this`log, this`faults
      ensures log == old(log) + [Attempt(Mark, ok)]
      ensures old(marker) ==> !ok && marker
      ensures ok ==> marker
      ensures faults <= old(faults) && (!old(marker) ==> FaultOnly(ok))
    {
      var fails := Fails();
      var effective: bool := *;
      ok := !fails && !marker;
      if ok || effective { marker := true; }
      log := log + [Attempt(Mark, ok)];
    }

    method ActivateProfile(p: Profile) returns (ok: bool)
      requires Valid() && p in profiles
      modifies this`units, this`gateway, this`activated, this`log, this`faults
      ensures Valid() && log == old(log) + [Attempt(Activate(p), ok)]
      ensures ok ==> Settled(p, Candidate)
      ensures forall q, v :: q in profiles && q != p && old(Settled(q, v)) ==> Settled(q, v)
      ensures FaultOnly(ok) && (p != fronted ==> gateway == old(gateway)) && (ok && p == fronted ==> gateway)
      ensures (ok && p == identified ==> activated) && (old(activated) ==> activated)
    {
      ok := Switch(p, Candidate);
      log := log + [Attempt(Activate(p), ok)];
    }

    method RestoreProfile(p: Profile) returns (ok: bool)
      requires Valid() && p in profiles
      modifies this`units, this`gateway, this`activated, this`log, this`faults
      ensures Valid() && log == old(log) + [Attempt(Restore(p), ok)]
      ensures ok ==> Settled(p, Original)
      ensures forall q, v :: q in profiles && q != p && old(Settled(q, v)) ==> Settled(q, v)
      ensures FaultOnly(ok) && (p != fronted ==> gateway == old(gateway)) && (ok && p == fronted ==> gateway)
    {
      ok := Switch(p, Original);
      log := log + [Attempt(Restore(p), ok)];
    }

    /** Every unit loads and answers with this release, and the gateway is up. */
    method Verify(v: Version) returns (ok: bool)
      requires Valid()
      modifies this`faults
      ensures ok ==> gateway && forall p :: p in profiles ==> units[p].loaded == v && units[p].running == Some(v)
      ensures faults <= old(faults) && (AllSettled(v) && gateway ==> FaultOnly(ok))
    {
      for i := 0 to |profiles|
        invariant faults <= old(faults)
        invariant forall k :: 0 <= k < i ==> units[profiles[k]].loaded == v && units[profiles[k]].running == Some(v)
      {
        if units[profiles[i]].loaded != v {
          assert profiles[i] in profiles && !Settled(profiles[i], v);
          return false;
        }
        ok := Probe(profiles[i], v);
        if !ok { return; }
      }
      var fails := Fails();
      ok := !fails && gateway;
    }

    /** Everything but the units themselves may go wrong here: data checks, the evidence,
        the write, or only its confirmation. */
    method PublishResult() returns (ok: bool)
      modifies this`published, this`log, this`faults
      ensures log == old(log) + [Attempt(Publish, ok)]
      ensures ok || old(published) ==> published
      ensures FaultOnly(ok)
    {
      var fails := Fails();
      ok := !fails;
      var effective: bool := *;
      if ok || effective { published := true; }
      log := log + [Attempt(Publish, ok)];
    }

    /** The forward steps; n of them succeed. */
    method Forward() returns (ok: bool, error: Op, touched: seq<Profile>, publishing: bool, ghost n: nat)
      requires Valid() && AllSettled(Original) && log == []
      modifies this
      ensures Valid() && n <= |Plan(profiles)| && ok == (n == |Plan(profiles)|)
      ensures log == Succeeded(Plan(profiles)[..n]) + if ok then [] else [Attempt(Plan(profiles)[n], false)]
      ensures touched == Touched(profiles, n) && publishing == (n >= |profiles| + 2)
      ensures !ok ==> error == Plan(profiles)[n]
      ensures forall p :: p in profiles && p !in touched ==> Settled(p, Original)
      ensures publishing ==> AllSettled(Candidate) && gateway && activated
      ensures ok ==> published
      ensures !publishing ==> published == old(published)
      ensures old(marker) ==> n == 0
      ensures faults <= old(faults) && (gateway || fronted in touched || !old(gateway))
      ensures !old(marker) && old(gateway) && identified in profiles ==> FaultOnly(ok)
    {
      ghost var plan := Plan(profiles);
      n, touched, publishing := 0, [], false;
      error := Mark;
      ok := MarkStarted();
      assert log == Succeeded(plan[..0]) + [Attempt(plan[0], ok)];
      if !ok { return; }
      LogGrows(plan, 0);
      n := 1;
      for i := 0 to |profiles|
        invariant Valid() && n == i + 1 && log == Succeeded(plan[..n])
        invariant touched == profiles[..i]
        invariant !old(marker) && published == old(published) && faults <= old(faults)
        invariant old(gateway) ==> gateway
        invariant identified in profiles[..i] ==> activated
        invariant forall k :: 0 <= k < i ==> Settled(profiles[k], Candidate)
        invariant forall k :: i <= k < |profiles| ==> Settled(profiles[k], Original)
      {
        touched := touched + [profiles[i]];
        error := Activate(profiles[i]);
        ok := ActivateProfile(profiles[i]);
        assert plan[n] == error;
        if !ok { return; }
        LogGrows(plan, n);
        n := n + 1;
      }
      error := VerifyTarget;
      ok := Verify(Candidate);
      ok := ok && activated;
      log := log + [Attempt(VerifyTarget, ok)];
      assert plan[n] == error;
      if !ok { return; }
      LogGrows(plan, n);
      n, publishing := n + 1, true;
      error := Publish;
      ok := PublishResult();
      assert plan[n] == error;
      if !ok { return; }
      LogGrows(plan, n);
      n := n + 1;
      assert plan[..n] == plan;
    }

    /** The compensation: every touched profile is tried, whatever happens to the others. */
    method Rollback(touched: seq<Profile>) returns (failures: seq<string>)
      requires Valid() && touched <= profiles
      requires forall p :: p in profiles && p !in touched ==> Settled(p, Original)
      modifies this`units, this`gateway, this`activated, this`log, this`faults
      ensures Valid() && |old(log)| <= |log| && log[..|old(log)|] == old(log)
      ensures Ops(log[|old(log)|..]) == Restores(touched) + [VerifyRestored]
      ensures failures == Failures(log[|old(log)|..])
      ensures failures == [] ==> AllSettled(Original) && gateway
      ensures forall p :: p in profiles && p !in touched ==> Settled(p, Original)
      ensures forall p :: p in touched && Attempt(Restore(p), false) !in log[|old(log)|..] ==> Settled(p, Original)
      ensures faults <= old(faults)
      ensures faults == old(faults) && (old(gateway) || fronted in touched) ==> failures == []
    {
      hide Ops, Failures, Restores, Distinct;
      ghost var base := |log|;
      failures := RestoreAll(touched);
      ghost var undo := log[base..];
      FailuresAreTheFailed(undo);
      var ok := Verify(Original);
      if !ok { failures := failures + ["pair_or_gateway"]; }
      log := log + [Attempt(VerifyRestored, ok)];
      assert log[base..] == undo + [Attempt(VerifyRestored, ok)];
      LastAttempt(undo, Attempt(VerifyRestored, ok));
    }

    method RestoreAll(touched: seq<Profile>) returns (failures: seq<string>)
      requires Valid() && touched <= profiles
      requires forall p :: p in profiles && p !in touched ==> Settled(p, Original)
      modifies this`units, this`gateway, this`activated, this`log, this`faults
      ensures Valid() && |old(log)| <= |log| && log[..|old(log)|] == old(log)
      ensures Ops(log[|old(log)|..]) == Restores(touched) && failures == Failures(log[|old(log)|..])
      ensures forall p :: p in profiles && p !in touched ==> Settled(p, Original)
      ensures forall p :: p in touched && Attempt(Restore(p), false) !in log[|old(log)|..] ==> Settled(p, Original)
      ensures faults <= old(faults)
      ensures faults == old(faults) ==> failures == [] && (old(gateway) || fronted in touched ==> gateway)
    {
      hide Ops, Failures, Restores, Distinct;
      ghost var base := |log|;
      failures := [];
      NothingUndone(touched);
      assert log[base..] == [];
      var i := |touched|;
      while i > 0
        invariant 0 <= i <= |touched| && Valid()
        invariant |log| == base + |touched| - i && log[..base] == old(log)
        invariant Ops(log[base..]) == Restores(touched)[..|touched| - i]
        invariant failures == Failures(log[base..])
        invariant faults <= old(faults) && (faults == old(faults) ==> failures == [])
        invariant faults == old(faults) && (old(gateway) || fronted in touched[i..]) ==> gateway
        invariant forall p :: p in profiles && p !in touched ==> Settled(p, Original)
        invariant forall k :: i <= k < |touched| && Attempt(Restore(touched[k]), false) !in log[base..] ==>
            Settled(touched[k], Original)
      {
        i := i - 1;
        ghost var undo := log[base..];
        var ok := RestoreProfile(touched[i]);
        if !ok { failures := failures + [touched[i]]; }
        assert log[base..] == undo + [Attempt(Restore(touched[i]), ok)];
        UndoGrows(touched, undo, Attempt(Restore(touched[i]), ok));
      }
      assert Restores(touched)[..|touched|] == Restores(touched);
    }

    /** `handoff`. */
    method Handoff() returns (outcome: Outcome, ghost n: nat)
      requires Valid() && AllSettled(Original) && log == [] && !published
      modifies this
      ensures Valid() && Trail(profiles, log, n, outcome)
      ensures published <==> outcome.Done? || outcome.Uncertain?
      ensures outcome.Done? || outcome.Uncertain? ==> AllSettled(Candidate) && gateway && activated
      ensures outcome.RolledBack? ==> AllSettled(Original) && gateway
      ensures outcome.Unverified? ==> forall p :: p in profiles && Attempt(Restore(p), false) !in log ==>
          Settled(p, Original)
      ensures old(marker) ==> n == 0
      ensures !old(marker) && old(gateway) && identified in profiles ==>
                && (faults == old(faults) ==> outcome.Done?)
                && (outcome.Unverified? ==> faults + 2 <= old(faults))
      ensures old(gateway) && outcome.Unverified? ==> faults < old(faults)
    {
      ghost var plan := Plan(profiles);
      var ok, error, touched, publishing;
      ok, error, touched, publishing, n := Forward();
      if ok {
        assert plan[..n] == plan;
        return Done, n;
      }
      ghost var forward := log;
      assert forward[..n] == Succeeded(plan[..n]) && forward[n] == Attempt(plan[n], false);
      assert publishing <==> plan[n] == Publish;
      if publishing && published { return Uncertain, n; }
      var failures := Rollback(touched);
      assert log[..n] == forward[..n] && log[n] == forward[n];
      outcome := if failures == [] then RolledBack(error) else Unverified(failures);
    }
  }
}
