/** Whole reconciles that nothing interrupts, as single functions.  Modules
    UndisturbedReconcile and ChildController show that they are what the
    controllers amount to. */
module Passes {
  import opened Secrets
  import opened Wrappers
  import opened Rotation

  /** Steps that ask for no new name and change no other input. */
  predicate Internal(st: Step) {
    IsChildStep(st) || st.Begin? || st.Go? || st.NotifError? || st.End?
  }

  /** The controllers and workloads can get from s to t, the environment standing still. */
  ghost predicate Reaches(s: State, t: State) {
    exists steps :: IsRun(s, steps) && After(s, steps) == t && forall st :: st in steps ==> Internal(st)
  }

  lemma ReachesSelf(s: State)
    ensures Reaches(s, s)
  {
    assert IsRun(s, []) && After(s, []) == s;
  }

  lemma ReachesOne(s: State, st: Step)
    requires Enabled(s, st) && Internal(st)
    ensures Reaches(s, Next(s, st))
  {
    var steps, t := [st], Next(s, st);
    assert steps[0] == st && steps[1..] == [];
    assert IsRun(t, []) && After(t, []) == t;
    assert IsRun(s, steps) && After(s, steps) == t;
  }

  lemma ReachesTrans(s: State, t: State, u: State)
    requires Reaches(s, t) && Reaches(t, u)
    ensures Reaches(s, u)
  {
    var a :| IsRun(s, a) && After(s, a) == t && forall st :: st in a ==> Internal(st);
    var b :| IsRun(t, b) && After(t, b) == u && forall st :: st in b ==> Internal(st);
    RunsCompose(s, a, b);
    assert IsRun(s, a + b) && After(s, a + b) == u;
  }

  lemma ReachesNext(s: State, t: State, st: Step)
    requires Reaches(s, t) && Enabled(t, st) && Internal(st)
    ensures Reaches(s, Next(t, st))
  {
    ReachesOne(t, st);
    ReachesTrans(s, t, Next(t, st));
  }

  // ---------------------------------------------------------------------
  // The parent

  function Wanted(e: Env): Inputs { Inputs(e.transport, e.notif, e.ac) }

  function WantedConfig(e: Env): Config { Config(Wanted(e), e.other) }

  /** Transport and notifications fields of the status before finalization. */
  function EarlyTransport(s: State): Name {
    if s.status.transport == "" then s.env.transport else s.status.transport
  }

  function EarlyNotif(s: State): Name {
    if s.variant == AsWritten then s.env.notif else s.status.notif
  }

  function HoldBoth(s: State): set<Name> {
    HoldIfNamed(Manage(s.held, s.env.transport), s.env.notif)
  }

  function EarlyHeldAC(s: State): set<Name> {
    if s.variant == AsWritten then s.heldAC else HoldIfNamed(s.heldAC, s.env.ac)
  }

  /** The reconcile that finds the input hash changed and returns early. */
  function EarlyPass(s: State): State {
    s.(held := HoldBoth(s), heldAC := EarlyHeldAC(s), cfg := WantedConfig(s.env),
       status := s.status.(transport := EarlyTransport(s), notif := EarlyNotif(s), hash := Some(WantedConfig(s.env))))
  }

  function PushAll(children: map<Id, Child>, ids: seq<Id>, inputs: Inputs): map<Id, Child>
    decreases |ids|
  {
    if ids == [] then children
    else
      var before := PushAll(children, ids[..|ids| - 1], inputs);
      before[ids[|ids| - 1] := PushedChild(before, ids[|ids| - 1], inputs)]
  }

  predicate AllReady(children: map<Id, Child>, ids: seq<Id>, inputs: Inputs) {
    forall c :: c in ids ==> c in children && ChildReady(children[c], inputs)
  }

  /** The reconcile that runs to its end. */
  function FullPass(s: State, ok: bool): State {
    var e := s.env;
    var children := PushAll(s.children, Ids(e), Wanted(e));
    var ready := AllReady(children, Ids(e), Wanted(e)) && ok;
    var ac := FinalizeRotation(HoldIfNamed(s.heldAC, e.ac), s.status.ac, e.ac, ready);
    var iac := FinalizeRotation(HoldIfNamed(s.heldIAC, e.iac), s.status.iac, e.iac, ready);
    var t := FinalizeRotation(HoldBoth(s), s.status.transport, e.transport, ready);
    var n := FinalizeRotation(t.held, s.status.notif, e.notif, ready);
    s.(cfg := WantedConfig(e), children := children,
       held := Prune(n.held, {t.tracked, e.transport, n.tracked, e.notif}),
       heldAC := Prune(ac.held, {ac.tracked, e.ac}),
       heldIAC := Prune(iac.held, {iac.tracked, e.iac}),
       status := Status(t.tracked, n.tracked, ac.tracked, iac.tracked, s.status.hash))
  }

  /** A reconcile of the parent that no call fails in. */
  function ParentPass(s: State, ok: bool): State {
    if s.env.transport == "" then s
    else if s.status.hash == Some(WantedConfig(s.env)) then FullPass(s, ok)
    else EarlyPass(s)
  }

  lemma {:induction false} PushedKnown(children: map<Id, Child>, ids: seq<Id>, inputs: Inputs)
    ensures var after := PushAll(children, ids, inputs);
            && (forall c :: c in after <==> c in children || c in ids)
            && (forall c :: c in ids ==> after[c] == PushedChild(children, c, inputs))
            && (forall c :: c in children && c !in ids ==> after[c] == children[c])
    decreases |ids|
  {
    if ids != [] {
      var front, last := ids[..|ids| - 1], ids[|ids| - 1];
      assert ids == front + [last];
      PushedKnown(children, front, inputs);
    }
  }

  /** No finalizer leaks: after a reconcile that ran to its end, from any state
      that any history may have left behind, only tracked and current secrets
      carry the finalizers, and every current one does unless a readiness-gated
      release just named it as the previous one. */
  lemma NoLeak(s: State, ok: bool)
    ensures var t := FullPass(s, ok);
            && t.held <= {t.status.transport, s.env.transport, t.status.notif, s.env.notif}
            && t.heldAC <= {t.status.ac, s.env.ac}
            && t.heldIAC <= {t.status.iac, s.env.iac}
            && (s.env.transport != "" && s.env.transport != s.status.notif ==> s.env.transport in t.held)
            && (s.env.notif != "" && s.env.notif != s.status.transport ==> s.env.notif in t.held)
  {
    assert s.env.transport in HoldBoth(s);
  }

  /** What the prunes of a running reconcile have achieved so far. */
  ghost predicate LeakFree(s: State) {
    s.run.Some? && WfLocals(s.run.value) && Idx(s.run.value.pc) > 4 ==>
      var r := s.run.value;
      && (Idx(r.pc) > 12 ==> s.held <= {r.mem.transport, r.transport.value, r.mem.notif, r.notif.value})
      && (Idx(r.pc) > 13 ==> s.heldAC <= {r.mem.ac, r.ac.value})
      && (Idx(r.pc) > 14 ==> s.heldIAC <= {r.mem.iac, r.iac})
  }

  lemma EarlyGoKeepsLeakFree(s: State, ok: bool)
    requires Wf(s) && Enabled(s, Go(ok)) && Idx(s.run.value.pc) < 12
    ensures LeakFree(GoParent(s, ok))
  {
    assert Idx(GoParent(s, ok).run.value.pc) <= 12;
  }

  lemma LateGoKeepsLeakFree(s: State, ok: bool)
    requires Wf(s) && LeakFree(s) && Enabled(s, Go(ok)) && Idx(s.run.value.pc) >= 12
    ensures LeakFree(GoParent(s, ok))
  {
  }

  lemma OtherKeepsLeakFree(s: State, st: Step)
    requires Wf(s) && LeakFree(s) && Enabled(s, st) && !st.Go?
    ensures LeakFree(Next(s, st))
  {
  }

  lemma {:induction false} RunKeepsLeakFree(s: State, steps: seq<Step>)
    requires Wf(s) && LeakFree(s) && IsRun(s, steps)
    ensures Wf(After(s, steps)) && LeakFree(After(s, steps))
    decreases |steps|
  {
    if steps != [] {
      StepKeepsWf(s, steps[0]);
      if !steps[0].Go? { OtherKeepsLeakFree(s, steps[0]); }
      else if Idx(s.run.value.pc) < 12 { EarlyGoKeepsLeakFree(s, steps[0].ok); }
      else { LateGoKeepsLeakFree(s, steps[0].ok); }
      RunKeepsLeakFree(Next(s, steps[0]), steps[1..]);
    }
  }

  /** No finalizer leaks over any run: however rotations, stopped reconciles and
      lost patches interleaved before, once a reconcile of the parent has run
      to its end and its status is patched, the holders of the three finalizers
      are among the tracked and the current secrets. */
  lemma NoLeakOverRuns(s: State, steps: seq<Step>)
    requires Init(s) && IsRun(s, steps)
    requires After(s, steps).run.Some? && After(s, steps).run.value.pc == Finished
    ensures var u := After(s, steps); var r, t := u.run.value, Next(u, End(true));
            && Ready(r)
            && t.held <= {t.status.transport, r.transport.value, t.status.notif, r.notif.value}
            && t.heldAC <= {t.status.ac, r.ac.value}
            && t.heldIAC <= {t.status.iac, r.iac}
  {
    RunKeepsLeakFree(s, steps);
  }

  // ---------------------------------------------------------------------
  // A child

  function Snap(s: State, child: Child): Snapshot { SnapshotOf(child.spec, s.cfg, s.env.other) }

  /** A reconcile of a child that no call fails in. */
  function PassedChild(s: State, child: Child): Child {
    var snap := Snap(s, child);
    if child.hash != Some(snap) then child.(hash := Some(snap), obs := child.gen)
    else
      var ready := child.pods <= {snap};
      child.(tmpl := Some(snap), obs := child.gen,
             applied := if ready then Some(child.ann) else child.applied,
             rolled := if ready then child.rolled + {Rolled(child.ann, snap)} else child.rolled)
  }

  function ChildPass(s: State, c: Id): State
    requires c in s.children
  {
    With(s, c, PassedChild(s, s.children[c]))
  }

  lemma WithTwice(s: State, c: Id, a: Child, b: Child)
    ensures With(With(s, c, a), c, b) == With(s, c, b)
  {
  }
}
