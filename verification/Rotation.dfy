/** The secret rotation protocol between the Ironic controller (the parent),
    its IronicAPI and IronicConductor controllers (the children), their
    workloads and the environment.

    A step is one call to the Kubernetes API or one computation between two
    such calls, so a reconcile of the parent and reconciles of the children
    may be interleaved in any order, and each may stop after any step.  What
    the in-memory status holds at that moment is then persisted, unless the
    status patch itself fails.

    Input hashes are modelled by the values they are computed from. */
module Rotation {
  import opened Secrets
  import opened Wrappers

  type Id = string

  /** The names the parent hands to a child: its spec carries them and its
      input hash annotation is their hash. */
  datatype Inputs = Inputs(transport: Name, notif: Name, ac: Name)

  /** The parent's rendered config secret; other stands for everything else that is rendered. */
  datatype Config = Config(inputs: Inputs, other: nat)

  /** What the pod template of a child is computed from: its own spec and the
      parent's config.  A child's input hash is the hash of this value. */
  datatype Snapshot = Snapshot(transport: Name, ac: Name, parent: Config, other: nat)

  /** A rollout that a child saw complete: every pod ran the snapshot. */
  datatype Rolled = Rolled(inputs: Inputs, snap: Snapshot)

  datatype Phase = Begun | Rendered | Applied | Observed | Halted

  /** A reconcile of a child under way: the CR as it was read, and local results. */
  datatype ChildRun = ChildRun(
    spec: Inputs, ann: Inputs, gen: nat,
    phase: Phase, snap: Option<Snapshot>, hash: Option<Snapshot>, ready: bool)

  datatype Child = Child(
    spec: Inputs, ann: Inputs, gen: nat,
    obs: nat, hash: Option<Snapshot>, applied: Option<Inputs>,   // status
    tmpl: Option<Snapshot>, pods: set<Snapshot>,                 // workload
    rolled: set<Rolled>,                                         // history
    run: Option<ChildRun>)

  datatype Status = Status(transport: Name, notif: Name, ac: Name, iac: Name, hash: Option<Config>)

  datatype Pc =
    | ReadTransport | HoldTransport | ReadNotif | HoldNotif | Render
    | HoldAC | HoldInspectorAC | Push
    | FinAC | FinInspectorAC | FinTransport | FinNotif
    | PruneTransport | PruneAC | PruneInspectorAC | Finished

  function Idx(pc: Pc): nat {
    match pc
    case ReadTransport => 0 case HoldTransport => 1 case ReadNotif => 2 case HoldNotif => 3 case Render => 4
    case HoldAC => 5 case HoldInspectorAC => 6 case Push => 7
    case FinAC => 8 case FinInspectorAC => 9 case FinTransport => 10 case FinNotif => 11
    case PruneTransport => 12 case PruneAC => 13 case PruneInspectorAC => 14 case Finished => 15
  }

  /** A reconcile of the parent under way. */
  datatype Run = Run(
    pc: Pc, stopped: bool,
    mem: Status,                 // the in-memory status
    transport: Option<Name>, notif: Option<Name>, ac: Option<Name>, iac: Name,
    acHeld: bool,                // the finalizer is on the credential that was read
    ids: seq<Id>, next: nat, ready: bool)

  /** What the parent reads and does not write. */
  datatype Env = Env(transport: Name, notif: Name, ac: Name, iac: Name, other: nat, conductors: seq<Id>)

  /** AsWritten is the code.  Corrected leaves the notifications status field
      alone until the rotation is finalized, as the code does for the transport,
      and holds the application credential before it renders it, too. */
  datatype Variant = AsWritten | Corrected

  datatype State = State(
    variant: Variant,
    env: Env,
    status: Status,              // persisted
    held: set<Name>,             // carry the transport consumer finalizer
    heldAC: set<Name>,
    heldIAC: set<Name>,
    cfg: Config,
    children: map<Id, Child>,
    run: Option<Run>,
    everTransport: set<Name>,    // history: names ever used for the transport
    everNotif: set<Name>)

  const API: Id := "api"

  function Ids(e: Env): seq<Id> { e.conductors + [API] }

  datatype Step =
    | RotateTransport(name: Name)
    | SetNotif(name: Name)
    | SetAC(name: Name)
    | SetInspectorAC(name: Name)
    | SetOther(other: nat)
    | AddConductor(id: Id)
    | Begin
    | Go(ok: bool)
    | NotifError
    | End(patched: bool)
    | ChildBegin(c: Id)
    | ChildRender(c: Id)
    | ChildApply(c: Id)
    | ChildObserve(c: Id, ok: bool)
    | ChildEnd(c: Id, patched: bool)
    | Rollout(c: Id, pods: set<Snapshot>)

  predicate InPhase(s: State, c: Id, phase: Phase) {
    c in s.children && s.children[c].run.Some? && s.children[c].run.value.phase == phase
  }

  predicate Ready(r: Run) {
    && (Idx(r.pc) > 0 ==> r.transport.Some?)
    && (Idx(r.pc) > 2 ==> r.notif.Some?)
    && (Idx(r.pc) > 4 ==> r.ac.Some?)
    && r.next <= |r.ids|
  }

  predicate Enabled(s: State, st: Step) {
    match st
    case RotateTransport(name) => name != ""
    case SetNotif(_) => true
    case SetAC(_) => true
    case SetInspectorAC(_) => true
    case SetOther(_) => true
    case AddConductor(_) => true
    case Begin => s.run.None?
    case Go(_) => s.run.Some? && !s.run.value.stopped && s.run.value.pc != Finished && Ready(s.run.value)
    case NotifError => s.variant == AsWritten && s.run.Some? && !s.run.value.stopped && s.run.value.pc == ReadNotif
    case End(_) => s.run.Some?
    case ChildBegin(c) => c in s.children && s.children[c].run.None?
    case ChildRender(c) => InPhase(s, c, Begun)
    case ChildApply(c) => InPhase(s, c, Rendered)
    case ChildObserve(c, _) => InPhase(s, c, Applied) && s.children[c].run.value.snap.Some?
    case ChildEnd(c, _) => c in s.children && s.children[c].run.Some?
    case Rollout(c, pods) => c in s.children && s.children[c].tmpl.Some?
                             && pods <= s.children[c].pods + {s.children[c].tmpl.value}
  }

  function HoldIfNamed(held: set<Name>, n: Name): set<Name> {
    if n == "" then held else Manage(held, n)
  }

  /** CreateOrUpdate of a child: spec and annotation in one write; the
      generation moves only when the spec does. */
  function PushedChild(children: map<Id, Child>, c: Id, inputs: Inputs): Child {
    if c !in children then Child(inputs, inputs, 1, 0, None, None, None, {}, {}, None)
    else if children[c].spec == inputs then children[c].(ann := inputs)
    else children[c].(spec := inputs, ann := inputs, gen := children[c].gen + 1)
  }

  /** The parent's readiness test on the child CR it just wrote. */
  predicate ChildReady(child: Child, inputs: Inputs) {
    child.gen == child.obs && child.applied == Some(inputs)
  }

  function CurrentInputs(r: Run): Inputs
    requires Idx(r.pc) > 4 && Ready(r)
  {
    Inputs(r.transport.value, r.notif.value, r.ac.value)
  }

  // The steps of a parent reconcile, in order.  Each takes the state and the
  // reconcile under way in it.

  function ReadsTransport(s: State, r: Run): State {
    var t := s.env.transport;
    if t == "" then s.(run := Some(r.(stopped := true)))
    else
      var mem := if s.status.transport == "" || s.status.transport == t then r.mem.(transport := t) else r.mem;
      s.(run := Some(r.(pc := HoldTransport, transport := Some(t), mem := mem)))
  }

  function HoldsTransport(s: State, r: Run): State
    requires r.transport.Some?
  {
    s.(held := Manage(s.held, r.transport.value), run := Some(r.(pc := ReadNotif)))
  }

  function ReadsNotif(s: State, r: Run): State {
    var mem := if s.variant == AsWritten then r.mem.(notif := s.env.notif) else r.mem;
    s.(run := Some(r.(pc := HoldNotif, notif := Some(s.env.notif), mem := mem)))
  }

  function HoldsNotif(s: State, r: Run): State
    requires r.notif.Some?
  {
    s.(held := HoldIfNamed(s.held, r.notif.value), run := Some(r.(pc := Render)))
  }

  /** The corrected variant first reads and holds the credential. */
  function Renders(s: State, r: Run): State
    requires r.transport.Some? && r.notif.Some?
  {
    if s.variant == Corrected && r.ac.None? then s.(run := Some(r.(ac := Some(s.env.ac))))
    else if s.variant == Corrected && !r.acHeld then
      s.(heldAC := HoldIfNamed(s.heldAC, r.ac.value), run := Some(r.(acHeld := true)))
    else
      var ac := if r.ac.Some? then r.ac.value else s.env.ac;
      var cfg := Config(Inputs(r.transport.value, r.notif.value, ac), s.env.other);
      var r' := r.(pc := HoldAC, ac := Some(ac), iac := s.env.iac);
      if r.mem.hash == Some(cfg) then s.(cfg := cfg, run := Some(r'))
      else s.(cfg := cfg, run := Some(r'.(stopped := true, mem := r.mem.(hash := Some(cfg)))))
  }

  function HoldsAC(s: State, r: Run): State
    requires r.ac.Some?
  {
    s.(heldAC := HoldIfNamed(s.heldAC, r.ac.value), run := Some(r.(pc := HoldInspectorAC, acHeld := true)))
  }

  function HoldsInspectorAC(s: State, r: Run): State {
    s.(heldIAC := HoldIfNamed(s.heldIAC, r.iac), run := Some(r.(pc := Push)))
  }

  function Pushes(s: State, r: Run, ok: bool): State
    requires Idx(r.pc) > 4 && Ready(r)
  {
    if r.next < |r.ids| then
      var inputs := CurrentInputs(r);
      var child := PushedChild(s.children, r.ids[r.next], inputs);
      s.(children := s.children[r.ids[r.next] := child],
         run := Some(r.(next := r.next + 1, ready := r.ready && ChildReady(child, inputs))))
    else
      s.(run := Some(r.(pc := FinAC, ready := r.ready && ok)))
  }

  function FinalizesAC(s: State, r: Run): State
    requires r.ac.Some?
  {
    var rot := FinalizeRotation(s.heldAC, s.status.ac, r.ac.value, r.ready);
    s.(heldAC := rot.held, run := Some(r.(pc := FinInspectorAC, mem := r.mem.(ac := rot.tracked))))
  }

  function FinalizesInspectorAC(s: State, r: Run): State {
    var rot := FinalizeRotation(s.heldIAC, s.status.iac, r.iac, r.ready);
    s.(heldIAC := rot.held, run := Some(r.(pc := FinTransport, mem := r.mem.(iac := rot.tracked))))
  }

  function FinalizesTransport(s: State, r: Run): State
    requires r.transport.Some?
  {
    var rot := FinalizeRotation(s.held, s.status.transport, r.transport.value, r.ready);
    s.(held := rot.held, run := Some(r.(pc := FinNotif, mem := r.mem.(transport := rot.tracked))))
  }

  function FinalizesNotif(s: State, r: Run): State
    requires r.notif.Some?
  {
    var rot := FinalizeRotation(s.held, s.status.notif, r.notif.value, r.ready);
    s.(held := rot.held, run := Some(r.(pc := PruneTransport, mem := r.mem.(notif := rot.tracked))))
  }

  function PrunesTransport(s: State, r: Run): State
    requires r.transport.Some? && r.notif.Some?
  {
    s.(held := Prune(s.held, {r.mem.transport, r.transport.value, r.mem.notif, r.notif.value}),
       run := Some(r.(pc := PruneAC)))
  }

  function PrunesAC(s: State, r: Run): State
    requires r.ac.Some?
  {
    s.(heldAC := Prune(s.heldAC, {r.mem.ac, r.ac.value}), run := Some(r.(pc := PruneInspectorAC)))
  }

  function PrunesInspectorAC(s: State, r: Run): State {
    s.(heldIAC := Prune(s.heldIAC, {r.mem.iac, r.iac}), run := Some(r.(pc := Finished)))
  }

  /** The next step of a parent reconcile. */
  function GoParent(s: State, ok: bool): State
    requires Enabled(s, Go(ok))
  {
    var r := s.run.value;
    match r.pc
    case ReadTransport => ReadsTransport(s, r)
    case HoldTransport => HoldsTransport(s, r)
    case ReadNotif => ReadsNotif(s, r)
    case HoldNotif => HoldsNotif(s, r)
    case Render => Renders(s, r)
    case HoldAC => HoldsAC(s, r)
    case HoldInspectorAC => HoldsInspectorAC(s, r)
    case Push => Pushes(s, r, ok)
    case FinAC => FinalizesAC(s, r)
    case FinInspectorAC => FinalizesInspectorAC(s, r)
    case FinTransport => FinalizesTransport(s, r)
    case FinNotif => FinalizesNotif(s, r)
    case PruneTransport => PrunesTransport(s, r)
    case PruneAC => PrunesAC(s, r)
    case PruneInspectorAC => PrunesInspectorAC(s, r)
    case Finished => s
  }

  function SnapshotOf(spec: Inputs, cfg: Config, other: nat): Snapshot {
    Snapshot(spec.transport, spec.ac, cfg, other)
  }

  function With(s: State, c: Id, child: Child): State {
    s.(children := s.children[c := child])
  }

  function StartedRun(s: State): Run {
    Run(ReadTransport, false, s.status, None, None, None, "", false, Ids(s.env), 0, true)
  }

  function EndedChild(child: Child, r: ChildRun, patched: bool): Child {
    if patched then
      child.(run := None, obs := r.gen, hash := r.hash, applied := if r.ready then Some(r.ann) else child.applied)
    else child.(run := None)
  }

  predicate IsChildStep(st: Step) {
    st.ChildBegin? || st.ChildRender? || st.ChildApply? || st.ChildObserve? || st.ChildEnd? || st.Rollout?
  }

  /** What a step of a child makes of it. */
  function ChildAfter(s: State, child: Child, st: Step): Child
    requires IsChildStep(st) && Enabled(s, st) && child == s.children[st.c]
  {
    match st
    case ChildBegin(_) =>
      child.(run := Some(ChildRun(child.spec, child.ann, child.gen, Begun, None, child.hash, false)))
    case ChildRender(_) =>
      var r := child.run.value;
      var snap := SnapshotOf(r.spec, s.cfg, s.env.other);
      child.(run := Some(if child.hash == Some(snap) then r.(phase := Rendered, snap := Some(snap))
                         else r.(phase := Halted, hash := Some(snap))))
    case ChildApply(_) => child.(tmpl := child.run.value.snap, run := Some(child.run.value.(phase := Applied)))
    case ChildObserve(_, ok) =>
      var r := child.run.value;
      var ready := ok && child.pods <= {r.snap.value};
      child.(rolled := if ready then child.rolled + {Rolled(r.ann, r.snap.value)} else child.rolled,
             run := Some(r.(phase := Observed, ready := ready)))
    case ChildEnd(_, patched) => EndedChild(child, child.run.value, patched)
    case Rollout(_, pods) => child.(pods := pods)
  }

  function Next(s: State, st: Step): State
    requires Enabled(s, st)
  {
    match st
    case RotateTransport(name) => s.(env := s.env.(transport := name), everTransport := s.everTransport + {name})
    case SetNotif(name) => s.(env := s.env.(notif := name), everNotif := s.everNotif + Real({name}))
    case SetAC(name) => s.(env := s.env.(ac := name))
    case SetInspectorAC(name) => s.(env := s.env.(iac := name))
    case SetOther(other) => s.(env := s.env.(other := other))
    case AddConductor(id) => s.(env := s.env.(conductors := s.env.conductors + [id]))
    case Begin => s.(run := Some(StartedRun(s)))
    case Go(ok) => GoParent(s, ok)
    case NotifError => s.(run := Some(s.run.value.(stopped := true, mem := s.run.value.mem.(notif := ""))))
    case End(patched) => s.(status := if patched then s.run.value.mem else s.status, run := None)
    case _ => With(s, st.c, ChildAfter(s, s.children[st.c], st))
  }

  // ---------------------------------------------------------------------
  // Runs

  ghost predicate Init(s: State) {
    && s.env.transport == s.env.notif == s.env.ac == s.env.iac == ""
    && s.status == Status("", "", "", "", None)
    && s.held == s.heldAC == s.heldIAC == s.everTransport == s.everNotif == {}
    && s.cfg == Config(Inputs("", "", ""), 0)
    && s.children == map[]
    && s.run == None
  }

  /** The steps can be taken one after the other from s. */
  ghost predicate IsRun(s: State, steps: seq<Step>)
    decreases |steps|
  {
    steps == [] || (Enabled(s, steps[0]) && IsRun(Next(s, steps[0]), steps[1..]))
  }

  ghost function After(s: State, steps: seq<Step>): State
    requires IsRun(s, steps)
    decreases |steps|
  {
    if steps == [] then s else After(Next(s, steps[0]), steps[1..])
  }

  lemma {:induction false} RunsCompose(s: State, a: seq<Step>, b: seq<Step>)
    requires IsRun(s, a) && IsRun(After(s, a), b)
    ensures IsRun(s, a + b) && After(s, a + b) == After(After(s, a), b)
    decreases |a|
  {
    if a == [] {
      assert a + b == b;
    } else {
      assert (a + b)[0] == a[0] && (a + b)[1..] == a[1..] + b;
      RunsCompose(Next(s, a[0]), a[1..], b);
    }
  }

  // ---------------------------------------------------------------------
  // Bookkeeping that every step keeps

  ghost predicate WfChild(c: Child) {
    && c.ann == c.spec
    && (c.run.Some? ==>
          var r := c.run.value;
          && r.ann == r.spec
          && (r.snap.Some? <==> r.phase in {Rendered, Applied, Observed})
          && (r.snap.Some? ==> r.snap.value.transport == r.spec.transport && r.snap.value.ac == r.spec.ac)
          && (r.phase in {Applied, Observed} ==> c.tmpl == r.snap)
          && (r.ready ==> r.phase == Observed))
  }

  /** Which locals are set, by program counter. */
  predicate WfLocals(r: Run) {
    && Ready(r)
    && (r.transport.Some? <==> Idx(r.pc) > 0)
    && (r.notif.Some? <==> Idx(r.pc) > 2)
    && (r.ac.Some? ==> Idx(r.pc) >= 4)
    && (r.acHeld ==> r.ac.Some?)
    && (Idx(r.pc) > 5 ==> r.acHeld)
    && (r.transport.Some? ==> r.transport.value != "")
    && (Idx(r.pc) < 7 ==> r.next == 0)
    && (Idx(r.pc) > 7 ==> r.next == |r.ids|)
  }

  ghost predicate WfRun(s: State, r: Run) {
    && WfLocals(r)
    && (Idx(r.pc) == 0 ==> r.mem.transport == s.status.transport)
    && (s.variant == Corrected && Idx(r.pc) > 4 ==> r.acHeld)
    && (s.variant == AsWritten && Idx(r.pc) == 4 ==> r.ac.None?)
    && API in r.ids
    && (forall c :: c in s.children ==> c in r.ids)
    && (forall c :: c in r.ids ==> c in Ids(s.env))
  }

  ghost predicate Wf(s: State) {
    && (forall c :: c in s.children ==> c in Ids(s.env) && WfChild(s.children[c]))
    && (s.run.Some? ==> WfRun(s, s.run.value))
  }

  lemma PushKeepsWf(s: State, ok: bool)
    requires Wf(s) && Enabled(s, Go(ok)) && s.run.value.pc == Push
    ensures Wf(Next(s, Go(ok)))
  {
    var r := s.run.value;
    if r.next < |r.ids| {
      assert r.ids[r.next] in r.ids;
    }
  }

  lemma StartKeepsLocals(s: State, ok: bool)
    requires Enabled(s, Go(ok)) && s.run.value.pc != Push && WfLocals(s.run.value)
    requires Idx(s.run.value.pc) < 7
    ensures var t := GoParent(s, ok);
            t.children == s.children && t.env == s.env && t.run.Some?
            && t.run.value.ids == s.run.value.ids && WfLocals(t.run.value)
  {
  }

  lemma FinishKeepsLocals(s: State, ok: bool)
    requires Enabled(s, Go(ok)) && s.run.value.pc != Push && WfLocals(s.run.value)
    requires Idx(s.run.value.pc) > 7
    ensures var t := GoParent(s, ok);
            t.children == s.children && t.env == s.env && t.run.Some?
            && t.run.value.ids == s.run.value.ids && WfLocals(t.run.value)
  {
  }

  /** The corrected variant holds the credential before it renders it; the other reads it only then. */
  lemma GoKeepsVariant(s: State, ok: bool)
    requires Enabled(s, Go(ok)) && s.run.value.pc != Push && WfRun(s, s.run.value)
    ensures var t := GoParent(s, ok);
            t.variant == s.variant && t.status == s.status && t.run.Some?
            && (s.variant == Corrected && Idx(t.run.value.pc) > 4 ==> t.run.value.acHeld)
            && (s.variant == AsWritten && Idx(t.run.value.pc) == 4 ==> t.run.value.ac.None?)
            && (Idx(t.run.value.pc) == 0 ==> t.run.value.mem.transport == s.status.transport)
  {
  }

  lemma GoKeepsWf(s: State, ok: bool)
    requires Wf(s) && Enabled(s, Go(ok)) && s.run.value.pc != Push
    ensures Wf(Next(s, Go(ok)))
  {
    if Idx(s.run.value.pc) < 7 { StartKeepsLocals(s, ok); } else { FinishKeepsLocals(s, ok); }
    GoKeepsVariant(s, ok);
  }

  lemma OtherKeepsWf(s: State, st: Step)
    requires Wf(s) && Enabled(s, st) && !IsChildStep(st) && !st.Go?
    ensures Wf(Next(s, st))
  {
  }

  lemma ChildKeepsWf(s: State, st: Step)
    requires Wf(s) && Enabled(s, st) && IsChildStep(st)
    ensures Wf(Next(s, st))
  {
    var t := Next(s, st);
    forall c | c in t.children ensures c in Ids(t.env) && WfChild(t.children[c]) {
      assert WfChild(s.children[c]);
    }
  }

  lemma StepKeepsWf(s: State, st: Step)
    requires Wf(s) && Enabled(s, st)
    ensures Wf(Next(s, st))
  {
    if IsChildStep(st) {
      ChildKeepsWf(s, st);
    } else if st.Go? {
      if s.run.value.pc == Push { PushKeepsWf(s, st.ok); } else { GoKeepsWf(s, st.ok); }
    } else {
      OtherKeepsWf(s, st);
    }
  }
}
