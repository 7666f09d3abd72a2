/** The controllers that own their workload, on their own fields: the reconcile
    of IronicNeutronAgent and IronicInspector, with every early return, is a
    run of the protocol. */
module SelfController {
  import opened Secrets
  import opened Wrappers
  import opened SelfRotation
  import Deletion

  /** How the calls of one reconcile come out: whether the workload reports its
      rollout done, whether it reports on the template applied last, and whether
      the lookup of the notifications TransportURL succeeds. */
  datatype Outcome = Outcome(ok: bool, observed: bool, found: bool)

  predicate Moving(s: State) { s.run.Some? && !s.run.value.stopped && s.run.value.pc != Finished }

  function StepOf(s: State, o: Outcome): (st: Step)
    requires Moving(s)
    ensures Enabled(s, st)
  {
    if !o.found && s.run.value.pc == ReadNotif then NotifError else Go(o.ok, o.observed)
  }

  /** The reconcile after k more calls, or fewer when it stops by itself. */
  ghost function Iter(s: State, k: nat, o: Outcome): State
    decreases k
  {
    if k > 0 && Moving(s) then Iter(Next(s, StepOf(s, o)), k - 1, o) else s
  }

  lemma IterOnce(s: State, k: nat, o: Outcome)
    requires k > 0 && Moving(s) && (o.found || s.run.value.pc != ReadNotif)
    ensures Iter(s, k, o) == Iter(GoRun(s, o.ok, o.observed), k - 1, o)
  {
  }

  lemma IterFails(s: State, k: nat, o: Outcome)
    requires k > 0 && Moving(s) && !o.found && s.run.value.pc == ReadNotif
    ensures Iter(s, k, o) == Iter(Next(s, NotifError), k - 1, o)
  {
  }

  /** What a reconcile leaves behind that stops after the given number of calls. */
  ghost function Reconciled(s: State, calls: nat, o: Outcome, patched: bool): State
    requires s.run.None?
  {
    var t := Iter(Next(s, Begin), calls, o);
    if t.run.Some? then Next(t, End(patched)) else t
  }

  lemma {:induction false} IterIsRun(s: State, k: nat, o: Outcome) returns (steps: seq<Step>)
    ensures IsRun(s, steps) && After(s, steps) == Iter(s, k, o)
    ensures Iter(s, k, o).run.Some? <==> s.run.Some?
    decreases k
  {
    if k > 0 && Moving(s) {
      var st := StepOf(s, o);
      var rest := IterIsRun(Next(s, st), k - 1, o);
      steps := [st] + rest;
      assert steps[1..] == rest;
    } else {
      steps := [];
    }
  }

  lemma {:induction false} Extends(s: State, a: seq<Step>, st: Step)
    requires IsRun(s, a) && Enabled(After(s, a), st)
    ensures IsRun(s, a + [st]) && After(s, a + [st]) == Next(After(s, a), st)
    decreases |a|
  {
    if a == [] {
      assert a + [st] == [st] && [st][1..] == [];
      assert IsRun(Next(s, st), []);
    } else {
      assert (a + [st])[0] == a[0] && (a + [st])[1..] == a[1..] + [st];
      Extends(Next(s, a[0]), a[1..], st);
    }
  }

  /** A reconcile is a run of the protocol, so every theorem about runs speaks about it. */
  lemma ReconciledIsRun(s: State, calls: nat, o: Outcome, patched: bool)
    requires s.run.None?
    ensures exists steps :: IsRun(s, steps) && After(s, steps) == Reconciled(s, calls, o, patched)
  {
    var steps := IterIsRun(Next(s, Begin), calls, o);
    assert ([Begin] + steps)[1..] == steps;
    assert IsRun(s, [Begin] + steps) && After(s, [Begin] + steps) == After(Next(s, Begin), steps);
    Extends(s, [Begin] + steps, End(patched));
  }

  class Controller {
    const kind: Kind
    // What the API server stores
    var live: Name
    var liveNotif: Name
    var other: nat
    var status: Status
    var held: set<Name>
    var cfg: Config
    var tmpl: Option<Pod>
    var pods: set<Pod>
    var ownFinalizer: bool
    // instance.Status in memory
    var transportURLSecret: Name
    var notificationsURLSecret: Name
    var inputHash: Option<Config>
    // history
    ghost const everTransport: set<Name>
    ghost const everNotif: set<Name>

    ghost function Stored(): State
      reads this
    {
      State(kind, live, liveNotif, other, status, held, cfg, tmpl, pods, None, everTransport, everNotif)
    }

    ghost predicate Mirrors(t: State)
      reads this
    {
      && t.run.Some?
      && Stored() == t.(run := None)
      && Status(transportURLSecret, notificationsURLSecret, inputHash) == t.run.value.mem
    }

    ghost predicate Stands(t: State, pc: Pc, transport: Name, notif: Name)
      reads this
    {
      Mirrors(t) && t.run.value.pc == pc && !t.run.value.stopped && t.run.value.transport == transport
          && t.run.value.notif == notif
    }

    /** The main transport: held first, tracked at once only on first setup. */
    method ReconcileTransportURL(left: nat, o: Outcome, ghost g: State)
      returns (rest: nat, go: bool, transport: Name, ghost t: State)
      requires Stands(g, ReadTransport, "", "")
      modifies `held, `transportURLSecret
      ensures Iter(t, rest, o) == Iter(g, left, o) && Mirrors(t)
      ensures go ==> Stands(t, ReadNotif, transport, "")
      ensures !go ==> rest == 0 || !Moving(t)
    {
      rest, go, transport, t := left, false, "", g;
      if rest == 0 { return; }
      IterOnce(t, rest, o);
      transport := live;
      rest, t := rest - 1, GoRun(t, o.ok, o.observed);
      if transport == "" || rest == 0 { return; }
      IterOnce(t, rest, o);
      held := Manage(held, transport);
      if transportURLSecret == "" || transportURLSecret == transport {
        transportURLSecret := transport;
      }
      rest, go, t := rest - 1, true, GoRun(t, o.ok, o.observed);
    }

    /** The notifications transport: the tracked name is overwritten, and is gone
        already when the lookup fails. */
    method ReconcileNotifications(left: nat, transport: Name, o: Outcome, ghost g: State)
      returns (rest: nat, go: bool, notif: Name, ghost t: State)
      requires Stands(g, ReadNotif, transport, "")
      modifies `held, `notificationsURLSecret
      ensures Iter(t, rest, o) == Iter(g, left, o) && Mirrors(t)
      ensures go ==> Stands(t, Render, transport, notif)
      ensures !go ==> rest == 0 || !Moving(t)
    {
      rest, go, notif, t := left, false, "", g;
      if rest == 0 { return; }
      notificationsURLSecret := "";
      if !o.found {
        IterFails(t, rest, o);
        rest, t := rest - 1, Next(t, NotifError);
        return;
      }
      IterOnce(t, rest, o);
      notif := liveNotif;
      notificationsURLSecret := notif;
      rest, t := rest - 1, GoRun(t, o.ok, o.observed);
      if rest == 0 { return; }
      IterOnce(t, rest, o);
      if notif != "" { held := Manage(held, notif); }
      rest, go, t := rest - 1, true, GoRun(t, o.ok, o.observed);
    }

    /** The config is rendered; a changed hash ends the reconcile. */
    method ReconcileConfig(left: nat, transport: Name, notif: Name, o: Outcome, ghost g: State)
      returns (rest: nat, go: bool, config: Config, ghost t: State)
      requires Stands(g, Render, transport, notif)
      modifies `cfg, `inputHash
      ensures Iter(t, rest, o) == Iter(g, left, o) && Mirrors(t)
      ensures go ==> Stands(t, Apply, transport, notif) && t.run.value.config == config
      ensures !go ==> rest == 0 || !Moving(t)
    {
      rest, go, config, t := left, false, Config(transport, notif, other), g;
      if rest == 0 { return; }
      IterOnce(t, rest, o);
      cfg := config;
      go := inputHash == Some(config);
      inputHash := Some(config);
      rest, t := rest - 1, GoRun(t, o.ok, o.observed);
    }

    /** The workload gets its template and is asked whether it is ready for this config. */
    method ReconcileWorkload(left: nat, transport: Name, notif: Name, config: Config, o: Outcome, ghost g: State)
      returns (rest: nat, go: bool, ready: bool, ghost t: State)
      requires Stands(g, Apply, transport, notif) && g.run.value.config == config
      modifies `tmpl
      ensures Iter(t, rest, o) == Iter(g, left, o) && Mirrors(t)
      ensures go ==> Stands(t, FinTransport, transport, notif) && t.run.value.ready == ready
      ensures !go ==> rest == 0 || !Moving(t)
    {
      rest, go, ready, t := left, false, false, g;
      if rest == 0 { return; }
      IterOnce(t, rest, o);
      tmpl := Some(Pod(config, if kind == Inspector then transportURLSecret else ""));
      rest, t := rest - 1, GoRun(t, o.ok, o.observed);
      if rest == 0 { return; }
      IterOnce(t, rest, o);
      if o.observed {
        ready := o.ok && AllFor(pods, config);
      }
      go := !(kind == Inspector && o.observed && !ready);
      rest, t := rest - 1, GoRun(t, o.ok, o.observed);
    }

    /** The rotations end when the workload is ready. */
    method FinalizeRotations(left: nat, transport: Name, notif: Name, ready: bool, o: Outcome, ghost g: State)
      returns (rest: nat, go: bool, ghost t: State)
      requires Stands(g, FinTransport, transport, notif) && g.run.value.ready == ready
      modifies `held, `transportURLSecret, `notificationsURLSecret
      ensures Iter(t, rest, o) == Iter(g, left, o) && Mirrors(t)
      ensures go ==> Stands(t, PruneStrays, transport, notif)
      ensures !go ==> rest == 0 || !Moving(t)
    {
      rest, go, t := left, false, g;
      if rest == 0 { return; }
      IterOnce(t, rest, o);
      var rotated := FinalizeRotation(held, transportURLSecret, transport, ready);
      held, transportURLSecret := rotated.held, rotated.tracked;
      rest, t := rest - 1, GoRun(t, o.ok, o.observed);
      if rest == 0 { return; }
      IterOnce(t, rest, o);
      rotated := FinalizeRotation(held, status.notif, notif, ready);
      held, notificationsURLSecret := rotated.held, rotated.tracked;
      rest, go, t := rest - 1, true, GoRun(t, o.ok, o.observed);
    }

    method PruneFinalizers(left: nat, transport: Name, notif: Name, o: Outcome, ghost g: State)
      requires Stands(g, PruneStrays, transport, notif)
      modifies `held
      ensures Mirrors(Iter(g, left, o))
    {
      if left == 0 { return; }
      IterOnce(g, left, o);
      held := Prune(held, {transportURLSecret, transport, notificationsURLSecret, notif});
    }

    method ReadInstance() returns (ghost g: State)
      modifies `transportURLSecret, `notificationsURLSecret, `inputHash
      ensures g == Next(Stored(), Begin) && Stored() == old(Stored()) && Stands(g, ReadTransport, "", "")
    {
      transportURLSecret, notificationsURLSecret, inputHash := status.transport, status.notif, status.hash;
      g := Next(Stored(), Begin);
    }

    method ReconcileNormal(calls: nat, o: Outcome, ghost g: State)
      requires Stands(g, ReadTransport, "", "")
      modifies `held, `cfg, `tmpl, `transportURLSecret, `notificationsURLSecret, `inputHash
      ensures Mirrors(Iter(g, calls, o))
    {
      var left, go, transport, notif, config, ready;
      ghost var t;
      left, go, transport, t := ReconcileTransportURL(calls, o, g);
      if !go { return; }
      left, go, notif, t := ReconcileNotifications(left, transport, o, t);
      if !go { return; }
      left, go, config, t := ReconcileConfig(left, transport, notif, o, t);
      if !go { return; }
      left, go, ready, t := ReconcileWorkload(left, transport, notif, config, o, t);
      if !go { return; }
      left, go, t := FinalizeRotations(left, transport, notif, ready, o, t);
      if !go { return; }
      PruneFinalizers(left, transport, notif, o, t);
    }

    /** A reconcile that stops after the given number of calls; its in-memory
        status is patched, unless that fails. */
    method Reconcile(calls: nat, o: Outcome, patched: bool)
      modifies this
      ensures Stored() == Reconciled(old(Stored()), calls, o, patched)
    {
      ghost var g := ReadInstance();
      ReconcileNormal(calls, o, g);
      if patched {
        status := Status(transportURLSecret, notificationsURLSecret, inputHash);
      }
    }

    /** The delete: tracked and live secrets lose the finalizer, and nothing is pruned. */
    method ReconcileDelete(calls: nat)
      requires ownFinalizer
      modifies `held, `ownFinalizer
      ensures !ownFinalizer <==> calls >= 4
      ensures held == old(held)
                      - Real((if calls >= 1 then {status.transport} else {}) + (if calls >= 2 then {live} else {})
                             + (if calls >= 3 then {liveNotif} else {}) + (if calls >= 4 then {status.notif} else {}))
      ensures !ownFinalizer ==> held == Deletion.Deleted(old(Stored()))
    {
      var rest, done;
      ghost var names := [status.transport, live, liveNotif, status.notif];
      assert names[0] == status.transport && names[1] == live && names[2] == liveNotif && names[3] == status.notif;
      held, rest, done := Deletion.RemoveEach(held, [status.transport, live, liveNotif, status.notif], calls);
      if done { ownFinalizer := false; }
    }
  }
}
