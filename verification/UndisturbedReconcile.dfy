/** The reconcile of the Ironic controller that no call fails in, run call by
    call, amounts to the single function ParentPass that the results on leaks
    and convergence are about. */
module UndisturbedReconcile {
  import opened Secrets
  import opened Wrappers
  import opened Rotation
  import opened Passes
  import opened IronicController

  /** The state in which the parent stands before its next call. */
  function At(s: State, mem: Status, pc: Pc, iac: Name, next: nat, ready: bool): State {
    var e := s.env;
    s.(run := Some(Run(pc, false, mem,
                       if Idx(pc) > 0 then Some(e.transport) else None,
                       if Idx(pc) > 2 then Some(e.notif) else None,
                       if Idx(pc) > 4 then Some(e.ac) else None,
                       iac, Idx(pc) > 5 || (Idx(pc) > 4 && s.variant == Corrected), Ids(e), next, ready)))
  }

  /** In-memory status, and state of the cluster, when the config is about to be rendered. */
  function EarlyStatus(s: State): Status { s.status.(transport := EarlyTransport(s), notif := EarlyNotif(s)) }

  function Early(s: State): State { s.(held := HoldBoth(s)) }

  /** The cluster when the first i children have been pushed. */
  function Pushing(s: State, i: nat): State
    requires i <= |Ids(s.env)|
  {
    Early(s).(cfg := WantedConfig(s.env),
              heldAC := HoldIfNamed(s.heldAC, s.env.ac), heldIAC := HoldIfNamed(s.heldIAC, s.env.iac),
              children := PushAll(s.children, Ids(s.env)[..i], Wanted(s.env)))
  }

  function PushingRun(s: State, i: nat): State
    requires i <= |Ids(s.env)|
  {
    At(Pushing(s, i), EarlyStatus(s), Push, s.env.iac, i,
        AllReady(Pushing(s, i).children, Ids(s.env)[..i], Wanted(s.env)))
  }

  lemma PushIsIdempotent(children: map<Id, Child>, ids: seq<Id>, c: Id, inputs: Inputs)
    ensures var before := PushAll(children, ids, inputs);
            var after := before[c := PushedChild(before, c, inputs)];
            AllReady(after, ids + [c], inputs) <==>
              AllReady(before, ids, inputs) && ChildReady(PushedChild(before, c, inputs), inputs)
  {
    PushedKnown(children, ids, inputs);
    var before := PushAll(children, ids, inputs);
    var after := before[c := PushedChild(before, c, inputs)];
    if c in ids {
      assert PushedChild(before, c, inputs) == before[c];
      assert after == before;
    }
    assert forall d :: d in ids + [c] <==> d in ids || d == c;
    forall d | d in ids ensures d in after && after[d] == before[d] {}
  }

  lemma PushedOneMore(s: State, i: nat)
    requires i < |Ids(s.env)|
    ensures var ids, inputs := Ids(s.env), Wanted(s.env);
            var before, after := PushAll(s.children, ids[..i], inputs), PushAll(s.children, ids[..i + 1], inputs);
            && after == before[ids[i] := PushedChild(before, ids[i], inputs)]
            && (AllReady(after, ids[..i + 1], inputs) <==>
                AllReady(before, ids[..i], inputs) && ChildReady(PushedChild(before, ids[i], inputs), inputs))
  {
    var ids := Ids(s.env);
    assert ids[..i + 1] == ids[..i] + [ids[i]] && ids[..i + 1][..i] == ids[..i];
    PushIsIdempotent(s.children, ids[..i], ids[i], Wanted(s.env));
  }

  lemma PushOne(s: State, i: nat, ok: bool)
    requires s.env.transport != "" && i < |Ids(s.env)|
    ensures Enabled(PushingRun(s, i), Go(ok)) && Next(PushingRun(s, i), Go(ok)) == PushingRun(s, i + 1)
  {
    PushedOneMore(s, i);
    var u := PushingRun(s, i);
    assert CurrentInputs(u.run.value) == Wanted(s.env);
    assert Next(u, Go(ok)) == Pushes(u, u.run.value, ok);
  }

  /** The reconcile after k more calls when the notifications lookup succeeds. */
  ghost function Iter(s: State, k: nat, ok: bool): State { IronicController.Iter(s, k, ok, true) }

  lemma IterStep(s: State, t: State, k: nat, ok: bool)
    requires Enabled(s, Go(ok)) && GoParent(s, ok) == t
    ensures Iter(s, k + 1, ok) == Iter(t, k, ok)
  {
    IterOnce(s, k + 1, ok, true);
  }

  lemma IterEnds(s: State, k: nat, ok: bool)
    requires !Enabled(s, Go(ok))
    ensures Iter(s, k, ok) == s
  {
  }

  lemma HoldsTransport(s: State, k: nat, ok: bool)
    requires s.run.None? && s.env.transport != ""
    ensures Iter(Next(s, Begin), k + 2, ok)
            == Iter(At(s.(held := Manage(s.held, s.env.transport)), s.status.(transport := EarlyTransport(s)),
                       ReadNotif, "", 0, true), k, ok)
  {
    var early := s.status.(transport := EarlyTransport(s));
    var a, b := At(s, s.status, ReadTransport, "", 0, true), At(s, early, HoldTransport, "", 0, true);
    IterStep(a, b, k + 1, ok);
    IterStep(b, At(s.(held := Manage(s.held, s.env.transport)), early, ReadNotif, "", 0, true), k, ok);
  }

  lemma HoldsNotif(s: State, k: nat, ok: bool)
    requires s.run.None? && s.env.transport != ""
    ensures Iter(At(s.(held := Manage(s.held, s.env.transport)), s.status.(transport := EarlyTransport(s)), ReadNotif,
                    "", 0, true), k + 2, ok)
            == Iter(At(Early(s), EarlyStatus(s), Render, "", 0, true), k, ok)
  {
    var u := s.(held := Manage(s.held, s.env.transport));
    var a := At(u, s.status.(transport := EarlyTransport(s)), ReadNotif, "", 0, true);
    var b := At(u, EarlyStatus(s), HoldNotif, "", 0, true);
    IterStep(a, b, k + 1, ok);
    IterStep(b, At(Early(s), EarlyStatus(s), Render, "", 0, true), k, ok);
  }

  /** The state in which the config is rendered next. */
  function AtRender(s: State): State {
    var a := At(Early(s), EarlyStatus(s), Render, "", 0, true);
    if s.variant == AsWritten then a
    else a.(heldAC := EarlyHeldAC(s), run := Some(a.run.value.(ac := Some(s.env.ac), acHeld := true)))
  }

  /** How many more calls the corrected variant makes before it renders. */
  function Extra(v: Variant): nat { if v == AsWritten then 0 else 2 }

  lemma HoldsBeforeRendering(s: State, k: nat, ok: bool)
    requires s.run.None? && s.env.transport != ""
    ensures Iter(At(Early(s), EarlyStatus(s), Render, "", 0, true), k + Extra(s.variant), ok)
            == Iter(AtRender(s), k, ok)
  {
    if s.variant == Corrected {
      var a := At(Early(s), EarlyStatus(s), Render, "", 0, true);
      var b := a.(run := Some(a.run.value.(ac := Some(s.env.ac))));
      IterStep(a, b, k + 1, ok);
      IterStep(b, AtRender(s), k, ok);
    }
  }

  lemma RenderStops(s: State, k: nat, ok: bool)
    requires s.run.None? && s.env.transport != "" && s.status.hash != Some(WantedConfig(s.env))
    ensures var t := Iter(AtRender(s), k + 1, ok);
            t.run.Some? && Next(t, End(true)) == EarlyPass(s)
  {
    var a := AtRender(s);
    IterStep(a, GoParent(a, ok), k, ok);
    IterEnds(GoParent(a, ok), k, ok);
  }

  lemma RenderGoesOn(s: State, k: nat, ok: bool)
    requires s.run.None? && s.env.transport != "" && s.status.hash == Some(WantedConfig(s.env))
    ensures var u := Early(s).(cfg := WantedConfig(s.env), heldAC := EarlyHeldAC(s));
            Iter(AtRender(s), k + 1, ok) == Iter(At(u, EarlyStatus(s), HoldAC, s.env.iac, 0, true), k, ok)
  {
    var u := Early(s).(cfg := WantedConfig(s.env), heldAC := EarlyHeldAC(s));
    IterStep(AtRender(s), At(u, EarlyStatus(s), HoldAC, s.env.iac, 0, true), k, ok);
  }

  lemma HoldsBoth(s: State, k: nat, ok: bool)
    requires s.env.transport != ""
    ensures var u := Early(s).(cfg := WantedConfig(s.env), heldAC := EarlyHeldAC(s));
            Iter(At(u, EarlyStatus(s), HoldAC, s.env.iac, 0, true), k + 2, ok) == Iter(PushingRun(s, 0), k, ok)
  {
    var u := Early(s).(cfg := WantedConfig(s.env), heldAC := EarlyHeldAC(s));
    var a := At(u, EarlyStatus(s), HoldAC, s.env.iac, 0, true);
    var b := At(u.(heldAC := HoldIfNamed(s.heldAC, s.env.ac)), EarlyStatus(s), HoldInspectorAC, s.env.iac, 0, true);
    assert HoldIfNamed(EarlyHeldAC(s), s.env.ac) == HoldIfNamed(s.heldAC, s.env.ac);
    IterStep(a, b, k + 1, ok);
    IterStep(b, PushingRun(s, 0), k, ok);
  }

  lemma HoldsCredentials(s: State, k: nat, ok: bool)
    requires s.run.None? && s.env.transport != "" && s.status.hash == Some(WantedConfig(s.env))
    ensures Iter(AtRender(s), k + 3, ok) == Iter(PushingRun(s, 0), k, ok)
  {
    RenderGoesOn(s, k + 2, ok);
    HoldsBoth(s, k, ok);
  }

  lemma FinalizesCredentials(s: State, u: State, mem: Status, ready: bool, k: nat, ok: bool)
    requires u.env == s.env && u.status == s.status && s.env.transport != ""
    ensures var n := |Ids(s.env)|;
            var ac := FinalizeRotation(u.heldAC, s.status.ac, s.env.ac, ready);
            var iac := FinalizeRotation(u.heldIAC, s.status.iac, s.env.iac, ready);
            Iter(At(u, mem, FinAC, s.env.iac, n, ready), k + 2, ok)
            == Iter(At(u.(heldAC := ac.held, heldIAC := iac.held), mem.(ac := ac.tracked, iac := iac.tracked),
                       FinTransport, s.env.iac, n, ready), k, ok)
  {
    var n := |Ids(s.env)|;
    var ac := FinalizeRotation(u.heldAC, s.status.ac, s.env.ac, ready);
    var iac := FinalizeRotation(u.heldIAC, s.status.iac, s.env.iac, ready);
    var b := At(u.(heldAC := ac.held), mem.(ac := ac.tracked), FinInspectorAC, s.env.iac, n, ready);
    IterStep(At(u, mem, FinAC, s.env.iac, n, ready), b, k + 1, ok);
    IterStep(b, At(u.(heldAC := ac.held, heldIAC := iac.held), mem.(ac := ac.tracked, iac := iac.tracked),
                   FinTransport, s.env.iac, n, ready), k, ok);
  }

  lemma FinalizesTransports(s: State, u: State, mem: Status, ready: bool, k: nat, ok: bool)
    requires u.env == s.env && u.status == s.status && s.env.transport != ""
    ensures var n := |Ids(s.env)|;
            var t := FinalizeRotation(u.held, s.status.transport, s.env.transport, ready);
            var nf := FinalizeRotation(t.held, s.status.notif, s.env.notif, ready);
            Iter(At(u, mem, FinTransport, s.env.iac, n, ready), k + 2, ok)
            == Iter(At(u.(held := nf.held), mem.(transport := t.tracked, notif := nf.tracked), PruneTransport,
                       s.env.iac, n, ready), k, ok)
  {
    var n := |Ids(s.env)|;
    var t := FinalizeRotation(u.held, s.status.transport, s.env.transport, ready);
    var nf := FinalizeRotation(t.held, s.status.notif, s.env.notif, ready);
    var b := At(u.(held := t.held), mem.(transport := t.tracked), FinNotif, s.env.iac, n, ready);
    IterStep(At(u, mem, FinTransport, s.env.iac, n, ready), b, k + 1, ok);
    IterStep(b, At(u.(held := nf.held), mem.(transport := t.tracked, notif := nf.tracked), PruneTransport, s.env.iac,
                   n, ready), k, ok);
  }

  function Pruned(u: State, mem: Status, e: Env): State {
    u.(held := Prune(u.held, {mem.transport, e.transport, mem.notif, e.notif}),
       heldAC := Prune(u.heldAC, {mem.ac, e.ac}), heldIAC := Prune(u.heldIAC, {mem.iac, e.iac}))
  }

  lemma PrunesTwo(u: State, mem: Status, ready: bool, k: nat, ok: bool)
    requires u.env.transport != ""
    ensures var e, n := u.env, |Ids(u.env)|;
            Iter(At(u, mem, PruneTransport, e.iac, n, ready), k + 2, ok)
            == Iter(At(Pruned(u, mem, e).(heldIAC := u.heldIAC), mem, PruneInspectorAC, e.iac, n, ready), k, ok)
  {
    var e, n := u.env, |Ids(u.env)|;
    var b := At(Pruned(u, mem, e).(heldAC := u.heldAC, heldIAC := u.heldIAC), mem, PruneAC, e.iac, n, ready);
    IterStep(At(u, mem, PruneTransport, e.iac, n, ready), b, k + 1, ok);
    IterStep(b, At(Pruned(u, mem, e).(heldIAC := u.heldIAC), mem, PruneInspectorAC, e.iac, n, ready), k, ok);
  }

  lemma PrunesAll(u: State, mem: Status, ready: bool, k: nat, ok: bool)
    requires u.env.transport != ""
    ensures var e, n := u.env, |Ids(u.env)|;
            Iter(At(u, mem, PruneTransport, e.iac, n, ready), k + 3, ok)
                == At(Pruned(u, mem, e), mem, Finished, e.iac, n, ready)
  {
    var e, n := u.env, |Ids(u.env)|;
    PrunesTwo(u, mem, ready, k + 1, ok);
    var c := At(Pruned(u, mem, e).(heldIAC := u.heldIAC), mem, PruneInspectorAC, e.iac, n, ready);
    IterStep(c, At(Pruned(u, mem, e), mem, Finished, e.iac, n, ready), k, ok);
    IterEnds(At(Pruned(u, mem, e), mem, Finished, e.iac, n, ready), k, ok);
  }

  /** The cluster and the in-memory status when all children have been pushed and the rotations finalized. */
  function Finalized(s: State, ready: bool): (State, Status) {
    var e, u := s.env, Pushing(s, |Ids(s.env)|);
    var ac := FinalizeRotation(u.heldAC, s.status.ac, e.ac, ready);
    var iac := FinalizeRotation(u.heldIAC, s.status.iac, e.iac, ready);
    var t := FinalizeRotation(u.held, s.status.transport, e.transport, ready);
    var n := FinalizeRotation(t.held, s.status.notif, e.notif, ready);
    (u.(heldAC := ac.held, heldIAC := iac.held, held := n.held),
     EarlyStatus(s).(ac := ac.tracked, iac := iac.tracked, transport := t.tracked, notif := n.tracked))
  }

  /** Whether the last push and the standalone services leave everything ready. */
  function AllServicesReady(s: State, ok: bool): bool {
    AllReady(Pushing(s, |Ids(s.env)|).children, Ids(s.env), Wanted(s.env)) && ok
  }

  lemma LeavesLoop(s: State, k: nat, ok: bool)
    requires s.env.transport != ""
    ensures var n := |Ids(s.env)|;
            Iter(PushingRun(s, n), k + 1, ok)
                == Iter(At(Pushing(s, n), EarlyStatus(s), FinAC, s.env.iac, n, AllServicesReady(s, ok)), k, ok)
  {
    var n := |Ids(s.env)|;
    assert Ids(s.env)[..n] == Ids(s.env);
    IterStep(PushingRun(s, n), At(Pushing(s, n), EarlyStatus(s), FinAC, s.env.iac, n, AllServicesReady(s, ok)), k, ok);
  }

  lemma FinalizesAll(s: State, ready: bool, k: nat, ok: bool)
    requires s.run.None? && s.env.transport != ""
    ensures var n, f := |Ids(s.env)|, Finalized(s, ready);
            Iter(At(Pushing(s, n), EarlyStatus(s), FinAC, s.env.iac, n, ready), k + 4, ok)
                == Iter(At(f.0, f.1, PruneTransport, s.env.iac, n, ready), k, ok)
  {
    var e, n := s.env, |Ids(s.env)|;
    var u, mem := Pushing(s, n), EarlyStatus(s);
    FinalizesCredentials(s, u, mem, ready, k + 2, ok);
    var ac := FinalizeRotation(u.heldAC, s.status.ac, e.ac, ready);
    var iac := FinalizeRotation(u.heldIAC, s.status.iac, e.iac, ready);
    FinalizesTransports(s, u.(heldAC := ac.held, heldIAC := iac.held), mem.(ac := ac.tracked, iac := iac.tracked),
                        ready, k, ok);
  }

  lemma FinalizedIsFullPass(s: State, ok: bool)
    requires s.run.None? && s.env.transport != "" && s.status.hash == Some(WantedConfig(s.env))
    ensures var f := Finalized(s, AllServicesReady(s, ok));
            f.0.env == s.env && Pruned(f.0, f.1, s.env).(status := f.1, run := None) == FullPass(s, ok)
  {
    assert Ids(s.env)[..|Ids(s.env)|] == Ids(s.env);
  }

  /** The state in which the reconcile stands when all its steps are taken. */
  function AtEnd(s: State, ok: bool): State {
    var ready := AllServicesReady(s, ok);
    var f := Finalized(s, ready);
    At(Pruned(f.0, f.1, s.env), f.1, Finished, s.env.iac, |Ids(s.env)|, ready)
  }

  lemma ComesToEnd(s: State, k: nat, ok: bool)
    requires s.run.None? && s.env.transport != ""
    ensures Iter(PushingRun(s, |Ids(s.env)|), k + 8, ok) == AtEnd(s, ok)
  {
    var ready := AllServicesReady(s, ok);
    var f := Finalized(s, ready);
    LeavesLoop(s, k + 7, ok);
    FinalizesAll(s, ready, k + 3, ok);
    PrunesAll(f.0, f.1, ready, k, ok);
  }

  lemma PatchAtEnd(s: State, ok: bool)
    requires s.run.None? && s.env.transport != "" && s.status.hash == Some(WantedConfig(s.env))
    ensures AtEnd(s, ok).run.Some? && Next(AtEnd(s, ok), End(true)) == FullPass(s, ok)
  {
    FinalizedIsFullPass(s, ok);
  }

  lemma WaitsForTransport(s: State, calls: nat, ok: bool)
    requires s.run.None? && calls > 0 && s.env.transport == ""
    ensures Reconciled(s, calls, ok, true, true) == s
  {
    var begun := Next(s, Begin);
    IterStep(begun, GoParent(begun, ok), calls - 1, ok);
    IterEnds(GoParent(begun, ok), calls - 1, ok);
  }

  lemma ComesToRender(s: State, k: nat, ok: bool)
    requires s.run.None? && s.env.transport != ""
    ensures Iter(Next(s, Begin), k + 4 + Extra(s.variant), ok) == Iter(AtRender(s), k, ok)
  {
    HoldsTransport(s, k + 2 + Extra(s.variant), ok);
    HoldsNotif(s, k + Extra(s.variant), ok);
    HoldsBeforeRendering(s, k, ok);
  }

  lemma ReturnsEarly(s: State, k: nat, ok: bool)
    requires s.run.None? && s.env.transport != "" && s.status.hash != Some(WantedConfig(s.env))
    ensures Reconciled(s, k + 5 + Extra(s.variant), ok, true, true) == EarlyPass(s)
  {
    ComesToRender(s, k + 1, ok);
    RenderStops(s, k, ok);
  }

  lemma {:induction false} PushesAll(s: State, i: nat, k: nat, ok: bool)
    requires s.env.transport != "" && i <= |Ids(s.env)|
    ensures Iter(PushingRun(s, i), |Ids(s.env)| - i + k, ok) == Iter(PushingRun(s, |Ids(s.env)|), k, ok)
    decreases |Ids(s.env)| - i
  {
    if i < |Ids(s.env)| {
      PushOne(s, i, ok);
      IterStep(PushingRun(s, i), PushingRun(s, i + 1), |Ids(s.env)| - i - 1 + k, ok);
      PushesAll(s, i + 1, k, ok);
    }
  }

  lemma GoesToEnd(s: State, k: nat, ok: bool, t: State)
    requires s.run.None? && s.env.transport != "" && s.status.hash == Some(WantedConfig(s.env))
    requires Iter(PushingRun(s, |Ids(s.env)|), k, ok) == t
    ensures Iter(AtRender(s), |Ids(s.env)| + k + 3, ok) == t
  {
    PushesAll(s, 0, k, ok);
    HoldsCredentials(s, |Ids(s.env)| + k, ok);
  }

  lemma ReconciledTo(s: State, k: nat, ok: bool, t: State)
    requires s.run.None? && s.env.transport != "" && Iter(AtRender(s), k, ok) == t && t.run.Some?
    ensures Reconciled(s, k + 4 + Extra(s.variant), ok, true, true) == Next(t, End(true))
  {
    ComesToRender(s, k, ok);
  }

  lemma RunsTo(s: State, k: nat, ok: bool, t: State)
    requires s.run.None? && s.env.transport != "" && s.status.hash == Some(WantedConfig(s.env))
    requires Iter(PushingRun(s, |Ids(s.env)|), k, ok) == t && t.run.Some?
    ensures Reconciled(s, |Ids(s.env)| + k + 7 + Extra(s.variant), ok, true, true) == Next(t, End(true))
  {
    GoesToEnd(s, k, ok, t);
    ReconciledTo(s, |Ids(s.env)| + k + 3, ok, t);
  }

  lemma EndOfPass(s: State, k: nat, ok: bool) returns (t: State)
    requires s.run.None? && s.env.transport != "" && s.status.hash == Some(WantedConfig(s.env))
    ensures Iter(PushingRun(s, |Ids(s.env)|), k + 8, ok) == t
    ensures t.run.Some? && Next(t, End(true)) == FullPass(s, ok)
  {
    ComesToEnd(s, k, ok);
    PatchAtEnd(s, ok);
    t := AtEnd(s, ok);
  }

  lemma RunsThrough(s: State, k: nat, ok: bool)
    requires s.run.None? && s.env.transport != "" && s.status.hash == Some(WantedConfig(s.env))
    ensures Reconciled(s, |Ids(s.env)| + k + 15 + Extra(s.variant), ok, true, true) == FullPass(s, ok)
  {
    var t := EndOfPass(s, k, ok);
    RunsTo(s, k + 8, ok, t);
  }

  /** With enough calls succeeding, and the status patched, the reconcile of the
      controller is ParentPass. */
  lemma UndisturbedIsPass(s: State, calls: nat, ok: bool)
    requires s.run.None? && calls >= |Ids(s.env)| + 15 + Extra(s.variant)
    ensures Reconciled(s, calls, ok, true, true) == ParentPass(s, ok)
  {
    if s.env.transport == "" { WaitsForTransport(s, calls, ok); }
    else if s.status.hash == Some(WantedConfig(s.env)) {
      RunsThrough(s, calls - 15 - Extra(s.variant) - |Ids(s.env)|, ok);
    } else {
      ReturnsEarly(s, calls - 5 - Extra(s.variant), ok);
    }
  }

  /** A reconcile in which no call fails is a run of the protocol. */
  lemma ParentPassIsRun(s: State, ok: bool)
    requires s.run.None?
    ensures Reaches(s, ParentPass(s, ok))
  {
    var calls := |Ids(s.env)| + 15 + Extra(s.variant);
    UndisturbedIsPass(s, calls, ok);
    ReconciledIsRun(s, calls, ok, true, true);
  }
}
