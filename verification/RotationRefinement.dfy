/** The full protocol refines the single-secret handshake of module Slot, once
    for each kind of secret, so what is proved there holds of all of them. */
module RotationRefinement {
  import opened Secrets
  import opened Wrappers
  import opened Rotation
  import Slot

  /** SpecCredential is the application credential as far as the children's own
      specs carry it; AppCredential also counts where the parent's config names it. */
  datatype Kind = Transport | Notification | AppCredential | SpecCredential

  predicate Credential(k: Kind) { k == AppCredential || k == SpecCredential }

  /** The kinds that the code as written does not keep safe. */
  predicate NeedsCorrection(k: Kind) { k == Notification || k == AppCredential }

  // ---------------------------------------------------------------------
  // The view of one kind

  function Sel(k: Kind, i: Inputs): Name {
    match k case Transport => i.transport case Notification => i.notif case _ => i.ac
  }

  function Flags(k: Kind): Slot.Flags {
    match k
    case Transport => Slot.Flags(true, true)
    case Notification => Slot.Flags(false, true)
    case AppCredential => Slot.Flags(true, true)
    case SpecCredential => Slot.Flags(true, false)
  }

  /** A template names the transport and the application credential of its own
      spec and of the parent's config, and the notifications secret of the
      config only. */
  function ViewSnap(k: Kind, v: Snapshot): Slot.Snap {
    match k
    case Transport => Slot.Snap(v.transport, v.parent.inputs.transport)
    case Notification => Slot.Snap("", v.parent.inputs.notif)
    case AppCredential => Slot.Snap(v.ac, v.parent.inputs.ac)
    case SpecCredential => Slot.Snap(v.ac, "")
  }

  function ViewSnapOpt(k: Kind, v: Option<Snapshot>): Option<Slot.Snap> {
    if v.None? then None else Some(ViewSnap(k, v.value))
  }

  function ViewPods(k: Kind, pods: set<Snapshot>): set<Slot.Snap> {
    set p | p in pods :: ViewSnap(k, p)
  }

  function ViewChildRun(k: Kind, r: Option<ChildRun>): Option<Slot.ChildRun> {
    if r.None? then None
    else Some(Slot.ChildRun(Sel(k, r.value.spec), ViewSnapOpt(k, r.value.snap), r.value.ready))
  }

  function ViewChild(k: Kind, c: Child): Slot.Child {
    Slot.Child(Sel(k, c.spec), if c.applied.None? then None else Some(Sel(k, c.applied.value)),
               ViewSnapOpt(k, c.tmpl), ViewPods(k, c.pods), ViewChildRun(k, c.run))
  }

  function ViewRun(k: Kind, r: Run): Slot.Run {
    match k
    case Transport => Slot.Run(r.mem.transport, r.transport, Idx(r.pc) > 1, Idx(r.pc) > 4, r.ids, r.next, r.ready,
                               Idx(r.pc) > 10)
    case Notification => Slot.Run(r.mem.notif, r.notif, Idx(r.pc) > 3, Idx(r.pc) > 4, r.ids, r.next, r.ready,
                                  Idx(r.pc) > 11)
    case AppCredential => Slot.Run(r.mem.ac, r.ac, r.acHeld, Idx(r.pc) > 4, r.ids, r.next, r.ready, Idx(r.pc) > 8)
    case SpecCredential => Slot.Run(r.mem.ac, r.ac, r.acHeld, false, r.ids, r.next, r.ready, Idx(r.pc) > 8)
  }

  function Target(k: Kind, s: State): Name {
    match k case Transport => s.env.transport case Notification => s.env.notif case _ => s.env.ac
  }

  function TrackedName(k: Kind, s: Status): Name {
    match k case Transport => s.transport case Notification => s.notif case _ => s.ac
  }

  function Holders(k: Kind, s: State): set<Name> {
    if Credential(k) then s.heldAC else s.held
  }

  function ViewChildren(k: Kind, children: map<Id, Child>): map<Id, Slot.Child> {
    map c | c in children :: ViewChild(k, children[c])
  }

  function View(k: Kind, s: State): Slot.State {
    Slot.State(Flags(k), TrackedName(k, s.status), Target(k, s), Holders(k, s),
               if k == SpecCredential then "" else Sel(k, s.cfg.inputs),
               ViewChildren(k, s.children),
               if s.run.None? then None else Some(ViewRun(k, s.run.value)))
  }

  // ---------------------------------------------------------------------
  // The two name spaces that share one finalizer stay apart

  ghost predicate Apart(s: State, st: Step) {
    && (st.RotateTransport? ==> st.name !in s.everNotif)
    && (st.SetNotif? ==> st.name !in s.everTransport)
  }

  ghost predicate NamesApart(s: State) {
    && s.everTransport !! s.everNotif
    && "" !in s.everTransport && "" !in s.everNotif
    && s.env.transport in s.everTransport + {""}
    && s.status.transport in s.everTransport + {""}
    && s.env.notif in s.everNotif + {""}
    && s.status.notif in s.everNotif + {""}
    && (s.run.Some? ==> RunApart(s.everTransport, s.everNotif, s.run.value))
  }

  /** The names that a reconcile of the parent works with. */
  ghost predicate RunApart(transports: set<Name>, notifs: set<Name>, r: Run) {
    && r.mem.transport in transports + {""}
    && r.mem.notif in notifs + {""}
    && (r.transport.Some? ==> r.transport.value in transports + {""})
    && (r.notif.Some? ==> r.notif.value in notifs + {""})
  }

  /** A step of the parent leaves everything but its own run, the holders, the config and the children alone. */
  ghost predicate SameRest(s: State, t: State) {
    t.variant == s.variant && t.env == s.env && t.status == s.status && t.everTransport == s.everTransport
        && t.everNotif == s.everNotif
  }

  lemma GoKeepsRest(s: State, ok: bool)
    requires Enabled(s, Go(ok))
    ensures SameRest(s, GoParent(s, ok)) && GoParent(s, ok).run.Some?
  {
  }

  lemma EarlyGoKeepsApart(s: State, ok: bool)
    requires NamesApart(s) && Enabled(s, Go(ok)) && Idx(s.run.value.pc) <= 3
    ensures RunApart(s.everTransport, s.everNotif, GoParent(s, ok).run.value)
  {
  }

  lemma RenderKeepsApart(s: State, ok: bool)
    requires NamesApart(s) && Enabled(s, Go(ok)) && s.run.value.pc == Render
    ensures RunApart(s.everTransport, s.everNotif, GoParent(s, ok).run.value)
  {
  }

  lemma MiddleGoKeepsApart(s: State, ok: bool)
    requires NamesApart(s) && Enabled(s, Go(ok)) && 5 <= Idx(s.run.value.pc) <= 9
    ensures RunApart(s.everTransport, s.everNotif, GoParent(s, ok).run.value)
  {
  }

  lemma LateGoKeepsApart(s: State, ok: bool)
    requires NamesApart(s) && Enabled(s, Go(ok)) && 10 <= Idx(s.run.value.pc)
    ensures RunApart(s.everTransport, s.everNotif, GoParent(s, ok).run.value)
  {
  }

  lemma OtherKeepsApart(s: State, st: Step)
    requires NamesApart(s) && Enabled(s, st) && Apart(s, st) && !st.Go? && !IsChildStep(st)
    ensures NamesApart(Next(s, st))
  {
  }

  lemma StepKeepsNamesApart(s: State, st: Step)
    requires NamesApart(s) && Enabled(s, st) && Apart(s, st)
    ensures NamesApart(Next(s, st))
  {
    if st.Go? {
      GoKeepsRest(s, st.ok);
      if Idx(s.run.value.pc) <= 3 { EarlyGoKeepsApart(s, st.ok); }
      else if s.run.value.pc == Render { RenderKeepsApart(s, st.ok); }
      else if Idx(s.run.value.pc) <= 9 { MiddleGoKeepsApart(s, st.ok); }
      else { LateGoKeepsApart(s, st.ok); }
    } else if !IsChildStep(st) {
      OtherKeepsApart(s, st);
    }
  }

  /** The two name spaces that share a finalizer stay apart along the run. */
  ghost predicate AllApart(s: State, steps: seq<Step>)
    requires IsRun(s, steps)
    decreases |steps|
  {
    steps == [] || (Apart(s, steps[0]) && AllApart(Next(s, steps[0]), steps[1..]))
  }

  // ---------------------------------------------------------------------
  // The step of the view

  /** The view moves by the given step, or not at all. */
  ghost predicate Simulates(v: Slot.State, a: Option<Slot.Step>, w: Slot.State) {
    match a
    case None => w == v
    case Some(step) => Slot.Enabled(v, step) && Slot.Next(v, step) == w
  }

  /** A reconcile r of the parent stands before step pc. */
  ghost predicate Going(k: Kind, s: State, r: Run, pc: Pc) {
    && (!Credential(k) ==> NamesApart(s))
    && (NeedsCorrection(k) ==> s.variant == Corrected)
    && s.run == Some(r) && WfRun(s, r) && r.pc == pc
  }

  lemma ReadTransportRefines(k: Kind, s: State, r: Run) returns (a: Option<Slot.Step>)
    requires Going(k, s, r, ReadTransport)
    ensures Simulates(View(k, s), a, View(k, ReadsTransport(s, r)))
  {
    a := if k == Transport && s.env.transport != "" then Some(Slot.Read(true)) else None;
  }

  lemma HoldTransportRefines(k: Kind, s: State, r: Run) returns (a: Option<Slot.Step>)
    requires Going(k, s, r, HoldTransport)
    ensures Simulates(View(k, s), a, View(k, HoldsTransport(s, r)))
  {
    a := if k == Transport then Some(Slot.Hold)
         else if k == Notification then Some(Slot.Foreign(HoldsTransport(s, r).held)) else None;
  }

  lemma ReadNotifRefines(k: Kind, s: State, r: Run) returns (a: Option<Slot.Step>)
    requires Going(k, s, r, ReadNotif)
    ensures Simulates(View(k, s), a, View(k, ReadsNotif(s, r)))
  {
    a := if k == Notification then Some(Slot.Read(false)) else None;
  }

  lemma HoldNotifRefines(k: Kind, s: State, r: Run) returns (a: Option<Slot.Step>)
    requires Going(k, s, r, HoldNotif)
    ensures Simulates(View(k, s), a, View(k, HoldsNotif(s, r)))
  {
    a := if k == Notification then Some(Slot.Hold)
         else if k == Transport then Some(Slot.Foreign(HoldsNotif(s, r).held)) else None;
  }

  /** The corrected variant has yet to read or to hold the credential. */
  predicate BeforeRendering(s: State, r: Run) { s.variant == Corrected && (r.ac.None? || !r.acHeld) }

  lemma BeforeRenderingRefines(k: Kind, s: State, r: Run) returns (a: Option<Slot.Step>)
    requires Going(k, s, r, Render) && BeforeRendering(s, r)
    ensures Simulates(View(k, s), a, View(k, Renders(s, r)))
  {
    if !Credential(k) { a := None; }
    else if r.ac.None? { a := Some(Slot.Read(false)); }
    else { a := Some(Slot.Hold); }
  }

  lemma RenderingReads(s: State, r: Run) returns (a: Option<Slot.Step>)
    requires Going(SpecCredential, s, r, Render) && !BeforeRendering(s, r)
    ensures Simulates(View(SpecCredential, s), a, View(SpecCredential, Renders(s, r)))
  {
    a := if s.variant == AsWritten then Some(Slot.Read(false)) else None;
  }

  /** The config comes to name what the reconcile has read and holds. */
  ghost predicate Writes(k: Kind, s: State, r: Run, t: State) {
    && SameRest(s, t) && t.children == s.children && t.held == s.held && t.heldAC == s.heldAC
    && t.run.Some? && ViewRun(k, t.run.value) == ViewRun(k, r).(rendered := true)
    && ViewRun(k, r).holding && ViewRun(k, r).next == 0 && ViewRun(k, r).cur == Some(Sel(k, t.cfg.inputs))
  }

  lemma RenderingWrites(k: Kind, s: State, r: Run)
    requires Going(k, s, r, Render) && !BeforeRendering(s, r) && k != SpecCredential
    ensures Writes(k, s, r, Renders(s, r))
  {
  }

  lemma WritesSimulate(k: Kind, s: State, r: Run, t: State)
    requires s.run == Some(r) && k != SpecCredential && Writes(k, s, r, t)
    ensures Simulates(View(k, s), Some(Slot.Write), View(k, t))
  {
  }

  lemma RenderRefines(k: Kind, s: State, r: Run) returns (a: Option<Slot.Step>)
    requires Going(k, s, r, Render)
    ensures Simulates(View(k, s), a, View(k, Renders(s, r)))
  {
    if BeforeRendering(s, r) { a := BeforeRenderingRefines(k, s, r); }
    else if k == SpecCredential { a := RenderingReads(s, r); }
    else {
      RenderingWrites(k, s, r);
      WritesSimulate(k, s, r, Renders(s, r));
      a := Some(Slot.Write);
    }
  }

  lemma HoldACRefines(k: Kind, s: State, r: Run) returns (a: Option<Slot.Step>)
    requires Going(k, s, r, HoldAC)
    ensures Simulates(View(k, s), a, View(k, HoldsAC(s, r)))
  {
    a := if Credential(k) then Some(Slot.Hold) else None;
  }

  lemma HoldInspectorACRefines(k: Kind, s: State, r: Run) returns (a: Option<Slot.Step>)
    requires Going(k, s, r, HoldInspectorAC)
    ensures Simulates(View(k, s), a, View(k, HoldsInspectorAC(s, r)))
  {
    a := None;
  }

  lemma FinACRefines(k: Kind, s: State, r: Run) returns (a: Option<Slot.Step>)
    requires Going(k, s, r, FinAC)
    ensures Simulates(View(k, s), a, View(k, FinalizesAC(s, r)))
  {
    a := if Credential(k) then Some(Slot.Release) else None;
  }

  lemma FinInspectorACRefines(k: Kind, s: State, r: Run) returns (a: Option<Slot.Step>)
    requires Going(k, s, r, FinInspectorAC)
    ensures Simulates(View(k, s), a, View(k, FinalizesInspectorAC(s, r)))
  {
    a := None;
  }

  lemma FinTransportRefines(k: Kind, s: State, r: Run) returns (a: Option<Slot.Step>)
    requires Going(k, s, r, FinTransport)
    ensures Simulates(View(k, s), a, View(k, FinalizesTransport(s, r)))
  {
    a := if k == Transport then Some(Slot.Release)
         else if k == Notification then Some(Slot.Foreign(FinalizesTransport(s, r).held)) else None;
  }

  lemma FinNotifRefines(k: Kind, s: State, r: Run) returns (a: Option<Slot.Step>)
    requires Going(k, s, r, FinNotif)
    ensures Simulates(View(k, s), a, View(k, FinalizesNotif(s, r)))
  {
    a := if k == Notification then Some(Slot.Release)
         else if k == Transport then Some(Slot.Foreign(FinalizesNotif(s, r).held)) else None;
  }

  lemma PruneTransportRefines(k: Kind, s: State, r: Run) returns (a: Option<Slot.Step>)
    requires Going(k, s, r, PruneTransport)
    ensures Simulates(View(k, s), a, View(k, PrunesTransport(s, r)))
  {
    a := if Credential(k) then None else Some(Slot.PruneTo(PrunesTransport(s, r).held));
  }

  lemma PruneACRefines(k: Kind, s: State, r: Run) returns (a: Option<Slot.Step>)
    requires Going(k, s, r, PruneAC)
    ensures Simulates(View(k, s), a, View(k, PrunesAC(s, r)))
  {
    a := if Credential(k) then Some(Slot.PruneTo(PrunesAC(s, r).heldAC)) else None;
  }

  lemma PruneInspectorACRefines(k: Kind, s: State, r: Run) returns (a: Option<Slot.Step>)
    requires Going(k, s, r, PruneInspectorAC)
    ensures Simulates(View(k, s), a, View(k, PrunesInspectorAC(s, r)))
  {
    a := None;
  }

  lemma ViewOfPush(k: Kind, children: map<Id, Child>, c: Id, inputs: Inputs, v: Slot.State)
    requires v.children == ViewChildren(k, children)
    ensures ViewChild(k, PushedChild(children, c, inputs)) == Slot.PushedChild(v, c, Sel(k, inputs))
  {
    assert ViewPods(k, {}) == {};
  }

  lemma ViewOfUpdate(k: Kind, children: map<Id, Child>, c: Id, child: Child)
    ensures ViewChildren(k, children[c := child]) == ViewChildren(k, children)[c := ViewChild(k, child)]
  {
  }

  lemma PushOneRefines(k: Kind, s: State, r: Run, ok: bool) returns (a: Option<Slot.Step>)
    requires Going(k, s, r, Push) && r.next < |r.ids|
    ensures Simulates(View(k, s), a, View(k, Pushes(s, r, ok)))
  {
    var c := r.ids[r.next];
    var inputs := CurrentInputs(r);
    var child := PushedChild(s.children, c, inputs);
    ViewOfPush(k, s.children, c, inputs, View(k, s));
    ViewOfUpdate(k, s.children, c, child);
    assert ViewRun(k, r).cur == Some(Sel(k, inputs));
    a := Some(Slot.Push(ChildReady(child, inputs)));
  }

  lemma PushRefines(k: Kind, s: State, r: Run, ok: bool) returns (a: Option<Slot.Step>)
    requires Going(k, s, r, Push)
    ensures Simulates(View(k, s), a, View(k, Pushes(s, r, ok)))
  {
    if r.next < |r.ids| { a := PushOneRefines(k, s, r, ok); } else { a := Some(Slot.Unready(ok)); }
  }

  lemma GoRefines(k: Kind, s: State, ok: bool) returns (a: Option<Slot.Step>)
    requires Wf(s) && Enabled(s, Go(ok)) && Going(k, s, s.run.value, s.run.value.pc)
    ensures Simulates(View(k, s), a, View(k, GoParent(s, ok)))
  {
    var r := s.run.value;
    match r.pc
    case ReadTransport => a := ReadTransportRefines(k, s, r);
    case HoldTransport => a := HoldTransportRefines(k, s, r);
    case ReadNotif => a := ReadNotifRefines(k, s, r);
    case HoldNotif => a := HoldNotifRefines(k, s, r);
    case Render => a := RenderRefines(k, s, r);
    case HoldAC => a := HoldACRefines(k, s, r);
    case HoldInspectorAC => a := HoldInspectorACRefines(k, s, r);
    case Push => a := PushRefines(k, s, r, ok);
    case FinAC => a := FinACRefines(k, s, r);
    case FinInspectorAC => a := FinInspectorACRefines(k, s, r);
    case FinTransport => a := FinTransportRefines(k, s, r);
    case FinNotif => a := FinNotifRefines(k, s, r);
    case PruneTransport => a := PruneTransportRefines(k, s, r);
    case PruneAC => a := PruneACRefines(k, s, r);
    case PruneInspectorAC => a := PruneInspectorACRefines(k, s, r);
  }

  /** The step of the view that a step of a child amounts to. */
  ghost function ChildStep(k: Kind, s: State, st: Step): Option<Slot.Step>
    requires IsChildStep(st) && Enabled(s, st)
  {
    var child := s.children[st.c];
    match st
    case ChildBegin(c) => Some(Slot.ChildBegin(c))
    case ChildRender(c) =>
      if child.hash == Some(SnapshotOf(child.run.value.spec, s.cfg, s.env.other)) then Some(Slot.ChildRender(c))
      else None
    case ChildApply(c) => Some(Slot.ChildApply(c))
    case ChildObserve(c, ok) => Some(Slot.ChildObserve(c, ok && child.pods <= {child.run.value.snap.value}))
    case ChildEnd(c, patched) => Some(Slot.ChildEnd(c, patched))
    case Rollout(c, pods) => Some(Slot.Rollout(c, ViewPods(k, pods)))
  }

  /** A slot state that holds the view of one child only. */
  ghost predicate Sees(k: Kind, s: State, v: Slot.State, c: Id) {
    && v.flags == Flags(k)
    && v.cfg == (if k == SpecCredential then "" else Sel(k, s.cfg.inputs))
    && c in s.children && c in v.children && v.children[c] == ViewChild(k, s.children[c])
  }

  /** The child's part of the view moves as the abstract step says. */
  ghost predicate Agrees(k: Kind, s: State, v: Slot.State, st: Step)
    requires IsChildStep(st) && Enabled(s, st) && Sees(k, s, v, st.c)
  {
    var a := ChildStep(k, s, st);
    var after := ViewChild(k, ChildAfter(s, s.children[st.c], st));
    if a.None? then after == v.children[st.c]
    else
      && Slot.IsChildStep(a.value) && a.value.c == st.c && Slot.Enabled(v, a.value)
      && after == Slot.ChildNext(v, v.children[st.c], a.value)
  }

  lemma ChildBeginAgrees(k: Kind, s: State, v: Slot.State, st: Step)
    requires st.ChildBegin? && Enabled(s, st) && Sees(k, s, v, st.c) && WfChild(s.children[st.c])
    ensures Agrees(k, s, v, st)
  {
  }

  lemma ChildRenderAgrees(k: Kind, s: State, v: Slot.State, st: Step)
    requires st.ChildRender? && Enabled(s, st) && Sees(k, s, v, st.c) && WfChild(s.children[st.c])
    ensures Agrees(k, s, v, st)
  {
  }

  lemma ChildApplyAgrees(k: Kind, s: State, v: Slot.State, st: Step)
    requires st.ChildApply? && Enabled(s, st) && Sees(k, s, v, st.c) && WfChild(s.children[st.c])
    ensures Agrees(k, s, v, st)
  {
  }

  lemma ChildObserveAgrees(k: Kind, s: State, v: Slot.State, st: Step)
    requires st.ChildObserve? && Enabled(s, st) && Sees(k, s, v, st.c) && WfChild(s.children[st.c])
    ensures Agrees(k, s, v, st)
  {
    if s.children[st.c].pods <= {s.children[st.c].run.value.snap.value} {
      assert ViewPods(k, s.children[st.c].pods) <= {ViewSnap(k, s.children[st.c].run.value.snap.value)};
    }
  }

  lemma ChildEndAgrees(k: Kind, s: State, v: Slot.State, st: Step)
    requires st.ChildEnd? && Enabled(s, st) && Sees(k, s, v, st.c) && WfChild(s.children[st.c])
    ensures Agrees(k, s, v, st)
  {
  }

  lemma RolloutAgrees(k: Kind, s: State, v: Slot.State, st: Step)
    requires st.Rollout? && Enabled(s, st) && Sees(k, s, v, st.c) && WfChild(s.children[st.c])
    ensures Agrees(k, s, v, st)
  {
    assert ViewPods(k, st.pods) <= ViewPods(k, s.children[st.c].pods) + {ViewSnap(k, s.children[st.c].tmpl.value)};
  }

  lemma ChildAgrees(k: Kind, s: State, v: Slot.State, st: Step)
    requires IsChildStep(st) && Enabled(s, st) && Sees(k, s, v, st.c) && WfChild(s.children[st.c])
    ensures Agrees(k, s, v, st)
  {
    match st
    case ChildBegin(_) => ChildBeginAgrees(k, s, v, st);
    case ChildRender(_) => ChildRenderAgrees(k, s, v, st);
    case ChildApply(_) => ChildApplyAgrees(k, s, v, st);
    case ChildObserve(_, _) => ChildObserveAgrees(k, s, v, st);
    case ChildEnd(_, _) => ChildEndAgrees(k, s, v, st);
    case Rollout(_, _) => RolloutAgrees(k, s, v, st);
  }

  /** What the step comes to in the view. */
  lemma AgreedStep(k: Kind, s: State, v: Slot.State, st: Step, after: Slot.Child)
    requires IsChildStep(st) && Enabled(s, st) && Sees(k, s, v, st.c) && Agrees(k, s, v, st)
    requires after == ViewChild(k, ChildAfter(s, s.children[st.c], st))
    ensures Simulates(v, ChildStep(k, s, st), Slot.Update(v, st.c, after))
  {
    if ChildStep(k, s, st).None? {
      assert Slot.Update(v, st.c, v.children[st.c]).children == v.children;
    }
  }

  lemma ViewOfWith(k: Kind, s: State, c: Id, child: Child)
    ensures View(k, With(s, c, child)) == Slot.Update(View(k, s), c, ViewChild(k, child))
  {
    ViewOfUpdate(k, s.children, c, child);
  }

  lemma ChildRefines(k: Kind, s: State, st: Step)
    requires Wf(s) && IsChildStep(st) && Enabled(s, st)
    ensures Simulates(View(k, s), ChildStep(k, s, st), View(k, Next(s, st)))
  {
    var v, after := View(k, s), ChildAfter(s, s.children[st.c], st);
    assert Sees(k, s, v, st.c) && WfChild(s.children[st.c]);
    ChildAgrees(k, s, v, st);
    AgreedStep(k, s, v, st, ViewChild(k, after));
    ViewOfWith(k, s, st.c, after);
    assert Next(s, st) == With(s, st.c, after);
  }

  lemma BeginRefines(k: Kind, s: State)
    requires Wf(s) && Enabled(s, Begin)
    ensures Simulates(View(k, s), Some(Slot.Begin(Ids(s.env))), View(k, Next(s, Begin)))
  {
    assert ViewChildren(k, Next(s, Begin).children) == ViewChildren(k, s.children);
  }

  lemma EndRefines(k: Kind, s: State, patched: bool)
    requires Enabled(s, End(patched))
    ensures Simulates(View(k, s), Some(Slot.Patch(patched)), View(k, Next(s, End(patched))))
  {
    assert ViewChildren(k, Next(s, End(patched)).children) == ViewChildren(k, s.children);
  }

  lemma NotifErrorRefines(k: Kind, s: State)
    requires Enabled(s, NotifError) && k != Notification
    ensures View(k, Next(s, NotifError)) == View(k, s)
  {
  }

  /** The environment asks for a new name, of this kind or of another. */
  lemma InputRefines(k: Kind, s: State, st: Step) returns (a: Option<Slot.Step>)
    requires Enabled(s, st) && Calm(k, s, st)
    requires st.RotateTransport? || st.SetNotif? || st.SetAC? || st.SetInspectorAC? || st.SetOther? || st.AddConductor?
    ensures Simulates(View(k, s), a, View(k, Next(s, st)))
  {
    var t := Next(s, st);
    assert ViewChildren(k, t.children) == ViewChildren(k, s.children);
    a := if Asked(k, s, st) == Target(k, s) then None else Some(Slot.Rotate(Asked(k, s, st)));
  }

  // ---------------------------------------------------------------------
  // Rotations one at a time

  /** The name a step asks for, for this kind of secret. */
  function Asked(k: Kind, s: State, st: Step): Name {
    match st
    case RotateTransport(name) => if k == Transport then name else Target(k, s)
    case SetNotif(name) => if k == Notification then name else Target(k, s)
    case SetAC(name) => if Credential(k) then name else Target(k, s)
    case _ => Target(k, s)
  }

  /** A new name is asked for only when the tracked one is the one asked for
      last; and to be rid of the secret altogether, only when every child has
      also reported that name as rolled out. */
  ghost predicate Calm(k: Kind, s: State, st: Step) {
    Asked(k, s, st) != Target(k, s) ==>
      && TrackedName(k, s.status) == Target(k, s)
      && (Asked(k, s, st) != "" || forall c :: c in s.children ==>
            s.children[c].applied.Some? && Sel(k, s.children[c].applied.value) == Target(k, s))
  }

  lemma StepRefines(k: Kind, s: State, st: Step) returns (a: Option<Slot.Step>)
    requires Wf(s) && (!Credential(k) ==> NamesApart(s)) && Enabled(s, st) && Calm(k, s, st)
    requires NeedsCorrection(k) ==> s.variant == Corrected
    ensures Simulates(View(k, s), a, View(k, Next(s, st)))
  {
    if IsChildStep(st) {
      ChildRefines(k, s, st);
      a := ChildStep(k, s, st);
    } else if st.Go? { a := GoRefines(k, s, st.ok); }
    else if st.Begin? { BeginRefines(k, s); a := Some(Slot.Begin(Ids(s.env))); }
    else if st.End? { EndRefines(k, s, st.patched); a := Some(Slot.Patch(st.patched)); }
    else if st.NotifError? { NotifErrorRefines(k, s); a := None; }
    else { a := InputRefines(k, s, st); }
  }
}
