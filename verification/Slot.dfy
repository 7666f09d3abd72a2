/** One rotating secret, seen on its own.

    The parent controller rotates three kinds of secrets through the same
    handshake with its children: the RabbitMQ transport secret, the
    notifications secret and the application credential.  This module is the
    handshake of a single kind, at the granularity of one API call per step,
    with every controller free to take a step at any moment.  Module
    RotationRefinement shows that the full protocol refines it, once per kind. */
module Slot {
  import opened Secrets
  import opened Wrappers

  type Id = string

  /** What one pod template names: a secret of the child's own spec, and the
      secret rendered into the parent's config that the template also reads. */
  datatype Snap = Snap(own: Name, cfg: Name)

  /** A reconcile of a child that is under way. */
  datatype ChildRun = ChildRun(want: Name, snap: Option<Snap>, ready: bool)

  datatype Child = Child(
    spec: Name,
    applied: Option<Name>,
    tmpl: Option<Snap>,
    pods: set<Snap>,
    run: Option<ChildRun>)

  /** A reconcile of the parent that is under way. */
  datatype Run = Run(
    mem: Name,            // tracked name in the in-memory status
    cur: Option<Name>,    // current secret, once read
    holding: bool,        // the finalizer is on the current secret
    rendered: bool,       // the parent's config names the current secret
    ids: seq<Id>,
    next: nat,            // children pushed so far
    ready: bool,
    released: bool)

  /** Which of the two names of a template this kind of secret uses. */
  datatype Flags = Flags(own: bool, cfg: bool)

  datatype State = State(
    flags: Flags,
    status: Name,         // persisted tracked name
    target: Name,         // the name the environment asks for
    held: set<Name>,
    cfg: Name,
    children: map<Id, Child>,
    run: Option<Run>)

  datatype Step =
    | Rotate(name: Name)
    | Begin(ids: seq<Id>)
    | Read(early: bool)
    | Hold
    | Write
    | Push(ok: bool)
    | Unready(ok: bool)
    | Release
    | PruneTo(keepers: set<Name>)
    | Foreign(others: set<Name>)
    | Patch(ok: bool)
    | ChildBegin(c: Id)
    | ChildRender(c: Id)
    | ChildApply(c: Id)
    | ChildObserve(c: Id, ok: bool)
    | ChildEnd(c: Id, ok: bool)
    | Rollout(c: Id, pods: set<Snap>)

  /** The environment may ask for a new name once the last rotation is tracked
      as finished; asking for no secret at all also waits for every child. */
  ghost predicate MayRotate(s: State, name: Name) {
    && s.status == s.target
    && name != s.target
    && (name != "" || forall c :: c in s.children ==> s.children[c].applied == Some(s.target))
  }

  ghost predicate InRun(s: State, c: Id) {
    c in s.children && s.children[c].run.Some?
  }

  ghost predicate Enabled(s: State, st: Step) {
    match st
    case Rotate(name) => MayRotate(s, name)
    case Begin(ids) => s.run.None? && (forall c :: c in s.children ==> c in ids)
    case Read(_) => s.run.Some? && s.run.value.cur.None?
    case Hold => s.run.Some? && s.run.value.cur.Some?
    case Write => s.run.Some? && s.run.value.cur.Some? && s.run.value.holding && s.run.value.next == 0
    case Push(_) =>
      && s.run.Some? && s.run.value.cur.Some? && s.run.value.holding
      && (s.flags.cfg ==> s.run.value.rendered)
      && s.run.value.next < |s.run.value.ids| && !s.run.value.released
    case Unready(_) => s.run.Some?
    case Release =>
      && s.run.Some? && s.run.value.cur.Some? && s.run.value.holding
      && (s.flags.cfg ==> s.run.value.rendered)
      && s.run.value.next == |s.run.value.ids| && !s.run.value.released
    case PruneTo(keepers) =>
      && s.run.Some? && s.run.value.released && s.run.value.cur.Some?
      && keepers <= s.held
      && forall n :: n in s.held && (n == s.run.value.mem || n == s.run.value.cur.value) ==> n in keepers
    case Foreign(others) =>
      forall n :: n in s.held && (n == s.status || n == s.target) ==> n in others
    case Patch(_) => s.run.Some?
    case ChildBegin(c) => c in s.children && s.children[c].run.None?
    case ChildRender(c) => InRun(s, c)
    case ChildApply(c) => InRun(s, c) && s.children[c].run.value.snap.Some?
    case ChildObserve(c, _) => InRun(s, c) && s.children[c].run.value.snap.Some?
                               && s.children[c].tmpl == s.children[c].run.value.snap
    case ChildEnd(c, _) => InRun(s, c)
    case Rollout(c, pods) => c in s.children && s.children[c].tmpl.Some?
                             && pods <= s.children[c].pods + {s.children[c].tmpl.value}
  }

  ghost function Update(s: State, c: Id, child: Child): State {
    s.(children := s.children[c := child])
  }

  ghost function Rendering(s: State, want: Name): Snap {
    Snap(if s.flags.own then want else "", if s.flags.cfg then s.cfg else "")
  }

  ghost function PushedChild(s: State, c: Id, cur: Name): Child {
    if c in s.children then s.children[c].(spec := cur)
    else Child(cur, None, None, {}, None)
  }

  predicate IsChildStep(st: Step) {
    st.ChildBegin? || st.ChildRender? || st.ChildApply? || st.ChildObserve? || st.ChildEnd? || st.Rollout?
  }

  /** What a step of a child makes of it. */
  ghost function ChildNext(s: State, child: Child, st: Step): Child
    requires IsChildStep(st) && Enabled(s, st) && child == s.children[st.c]
  {
    match st
    case ChildBegin(_) => child.(run := Some(ChildRun(child.spec, None, false)))
    case ChildRender(_) =>
      var r := child.run.value;
      child.(run := Some(r.(snap := Some(Rendering(s, r.want)), ready := false)))
    case ChildApply(_) => child.(tmpl := child.run.value.snap, run := Some(child.run.value.(ready := false)))
    case ChildObserve(_, ok) =>
      var r := child.run.value;
      child.(run := Some(r.(ready := ok && child.pods <= {r.snap.value})))
    case ChildEnd(_, ok) =>
      var r := child.run.value;
      child.(run := None, applied := if ok && r.ready then Some(r.want) else child.applied)
    case Rollout(_, pods) => child.(pods := pods)
  }

  ghost function Next(s: State, st: Step): State
    requires Enabled(s, st)
  {
    match st
    case Rotate(name) => s.(target := name)
    case Begin(ids) => s.(run := Some(Run(s.status, None, false, false, ids, 0, true, false)))
    case Read(early) =>
      var r := s.run.value;
      s.(run := Some(r.(cur := Some(s.target), mem := if early && s.status == "" then s.target else r.mem)))
    case Hold =>
      s.(held := if s.run.value.cur.value == "" then s.held else Manage(s.held, s.run.value.cur.value),
         run := Some(s.run.value.(holding := true)))
    case Write =>
      s.(cfg := if s.flags.cfg then s.run.value.cur.value else s.cfg,
         run := Some(s.run.value.(rendered := true)))
    case Push(ok) =>
      var r := s.run.value;
      var c := r.ids[r.next];
      var child := PushedChild(s, c, r.cur.value);
      Update(s, c, child).(run := Some(r.(next := r.next + 1, ready := r.ready && ok && child.applied == r.cur)))
    case Unready(ok) => s.(run := Some(s.run.value.(ready := s.run.value.ready && ok)))
    case Release =>
      var r := s.run.value;
      var rot := FinalizeRotation(s.held, s.status, r.cur.value, r.ready);
      s.(held := rot.held, run := Some(r.(mem := rot.tracked, released := true)))
    case PruneTo(keepers) => s.(held := keepers)
    case Foreign(others) => s.(held := others)
    case Patch(ok) => s.(status := if ok then s.run.value.mem else s.status, run := None)
    case _ => Update(s, st.c, ChildNext(s, s.children[st.c], st))
  }

  // ---------------------------------------------------------------------
  // Safety

  ghost predicate SnapIn(f: Flags, v: Snap, names: set<Name>) {
    (f.own ==> v.own in names) && (f.cfg ==> v.cfg in names)
  }

  /** Every name a child, its workload or its running reconcile uses lies in the set. */
  ghost predicate ChildIn(f: Flags, c: Child, names: set<Name>) {
    && c.spec in names
    && (c.tmpl.Some? ==> SnapIn(f, c.tmpl.value, names))
    && (forall p :: p in c.pods ==> SnapIn(f, p, names))
    && (c.run.Some? ==> c.run.value.want in names)
    && (c.run.Some? && c.run.value.snap.Some? ==> SnapIn(f, c.run.value.snap.value, names))
  }

  /** The child is entirely on secret t. */
  ghost predicate At(f: Flags, c: Child, t: Name) {
    ChildIn(f, c, {t})
  }

  /** Every secret in use carries the finalizer. */
  ghost predicate Safe(s: State) {
    && (forall c :: c in s.children ==> ChildIn(s.flags, s.children[c], s.held + {""}))
    && (s.flags.cfg ==> s.cfg in s.held + {""})
  }

  /** Nothing of the child has met name t yet. */
  ghost predicate Fresh(c: Child, t: Name) {
    && c.spec != t
    && c.applied != Some(t)
    && (c.run.Some? ==> c.run.value.want != t)
  }

  ghost predicate AllFresh(s: State) {
    forall c :: c in s.children ==> Fresh(s.children[c], s.target)
  }

  /** Only the tracked secret is in use. */
  ghost predicate AllOld(s: State) {
    && (forall c :: c in s.children ==> ChildIn(s.flags, s.children[c], {s.status, ""}))
    && (s.flags.cfg ==> s.cfg in {s.status, ""})
  }

  ghost predicate AllApplied(s: State) {
    forall c :: c in s.children ==> s.children[c].applied == Some(s.target)
  }

  ghost predicate GoodChildRun(f: Flags, c: Child, r: ChildRun, target: Name) {
    && (r.want == target ==> c.spec == target)
    && (r.snap.Some? && f.own ==> r.snap.value.own == r.want)
    && (r.snap.Some? && f.cfg && r.want == target ==> r.snap.value.cfg == target)
    && (r.ready ==> r.snap.Some? && c.tmpl == r.snap && c.pods <= {r.snap.value})
  }

  ghost predicate GoodChild(s: State, c: Child) {
    var known := {s.status, s.target, ""};
    && ChildIn(s.flags, c, known)
    && (c.applied.Some? ==> c.applied.value in known)
    && (c.applied == Some(s.target) ==> At(s.flags, c, s.target))
    && (c.run.Some? ==> GoodChildRun(s.flags, c, c.run.value, s.target))
  }

  ghost predicate GoodRun(s: State, r: Run) {
    && r.next <= |r.ids|
    && (forall c :: c in s.children ==> c in r.ids)
    && (r.cur.None? ==> r.mem == s.status && !r.holding && !r.rendered && r.next == 0 && !r.released)
    && (r.cur.Some? ==>
          var x := r.cur.value;
          && (x == s.status || x == s.target)
          && (x != s.target ==> AllFresh(s) && AllOld(s))
          && (r.holding ==> x in s.held + {""})
          && (r.rendered ==> r.holding && (s.flags.cfg ==> s.cfg == x))
          && (r.next > 0 || r.released ==> r.holding && (s.flags.cfg ==> r.rendered))
          && (r.ready && x == s.target ==>
                forall i :: 0 <= i < r.next ==>
                  r.ids[i] in s.children && s.children[r.ids[i]].applied == Some(s.target))
          && (!r.released ==> r.mem == s.status || (s.status == "" && r.mem == x))
          && (r.released ==> r.next == |r.ids| && (r.mem == s.status || r.mem == x))
          && (r.released && r.mem != s.status && s.status != "" ==> x == s.target && AllApplied(s)))
  }

  ghost predicate GoodWorkloads(s: State) {
    && Safe(s)
    && (forall c :: c in s.children ==> GoodChild(s, s.children[c]))
    && (s.flags.cfg ==> s.cfg in {s.status, s.target, ""})
    && (s.flags.cfg && s.cfg != s.target ==> AllFresh(s))
  }

  ghost predicate Inv(s: State) {
    && GoodWorkloads(s)
    && (s.run.Some? ==> GoodRun(s, s.run.value))
  }

  lemma RotateKeepsWorkloads(s: State, name: Name)
    requires Inv(s) && Enabled(s, Rotate(name))
    ensures GoodWorkloads(Next(s, Rotate(name)))
  {
  }

  lemma RotateKeepsRun(s: State, name: Name)
    requires Inv(s) && Enabled(s, Rotate(name)) && s.run.Some?
    ensures GoodRun(Next(s, Rotate(name)), s.run.value)
  {
  }

  lemma RotateKeeps(s: State, name: Name)
    requires Inv(s) && Enabled(s, Rotate(name))
    ensures Inv(Next(s, Rotate(name)))
  {
    RotateKeepsWorkloads(s, name);
    if s.run.Some? { RotateKeepsRun(s, name); }
  }

  lemma BeginKeeps(s: State, ids: seq<Id>)
    requires Inv(s) && Enabled(s, Begin(ids))
    ensures Inv(Next(s, Begin(ids)))
  {
  }

  lemma ReadKeeps(s: State, early: bool)
    requires Inv(s) && Enabled(s, Read(early))
    ensures Inv(Next(s, Read(early)))
  {
  }

  lemma HoldKeeps(s: State)
    requires Inv(s) && Enabled(s, Hold)
    ensures Inv(Next(s, Hold))
  {
  }

  lemma WriteKeeps(s: State)
    requires Inv(s) && Enabled(s, Write)
    ensures Inv(Next(s, Write))
  {
  }

  lemma UnreadyKeeps(s: State, ok: bool)
    requires Inv(s) && Enabled(s, Unready(ok))
    ensures Inv(Next(s, Unready(ok)))
  {
  }

  lemma ForeignKeepsWorkloads(s: State, others: set<Name>)
    requires Inv(s) && Enabled(s, Foreign(others))
    ensures GoodWorkloads(Next(s, Foreign(others)))
  {
  }

  lemma ForeignKeepsRun(s: State, others: set<Name>)
    requires Inv(s) && Enabled(s, Foreign(others)) && s.run.Some?
    ensures GoodRun(Next(s, Foreign(others)), s.run.value)
  {
  }

  lemma ForeignKeeps(s: State, others: set<Name>)
    requires Inv(s) && Enabled(s, Foreign(others))
    ensures Inv(Next(s, Foreign(others)))
  {
    ForeignKeepsWorkloads(s, others);
    if s.run.Some? { ForeignKeepsRun(s, others); }
  }

  lemma PushedIsGood(s: State, ok: bool)
    requires Inv(s) && Enabled(s, Push(ok))
    ensures var r := s.run.value; var child := PushedChild(s, r.ids[r.next], r.cur.value);
            GoodChild(s, child) && ChildIn(s.flags, child, s.held + {""})
  {
    var r := s.run.value;
    if r.ids[r.next] in s.children { assert GoodChild(s, s.children[r.ids[r.next]]); }
  }

  lemma PushKeepsWorkloads(s: State, ok: bool)
    requires Inv(s) && Enabled(s, Push(ok))
    ensures GoodWorkloads(Next(s, Push(ok)))
  {
    PushedIsGood(s, ok);
    var t := Next(s, Push(ok));
    forall c | c in t.children ensures GoodChild(t, t.children[c]) {
      assert c != s.run.value.ids[s.run.value.next] ==> GoodChild(s, s.children[c]);
    }
  }

  lemma PushKeepsRun(s: State, ok: bool)
    requires Inv(s) && Enabled(s, Push(ok))
    ensures GoodRun(Next(s, Push(ok)), Next(s, Push(ok)).run.value)
  {
    PushedIsGood(s, ok);
  }

  lemma PushKeeps(s: State, ok: bool)
    requires Inv(s) && Enabled(s, Push(ok))
    ensures Inv(Next(s, Push(ok)))
  {
    PushKeepsWorkloads(s, ok);
    PushKeepsRun(s, ok);
  }

  lemma ReleaseKeeps(s: State)
    requires Inv(s) && Enabled(s, Release)
    ensures Inv(Next(s, Release))
  {
  }

  lemma PruneIsSafe(s: State, keepers: set<Name>)
    requires Inv(s) && Enabled(s, PruneTo(keepers))
    ensures Safe(Next(s, PruneTo(keepers)))
  {
    forall c | c in s.children ensures ChildIn(s.flags, s.children[c], keepers + {""}) {
      assert GoodChild(s, s.children[c]);
    }
  }

  lemma PruneKeeps(s: State, keepers: set<Name>)
    requires Inv(s) && Enabled(s, PruneTo(keepers))
    ensures Inv(Next(s, PruneTo(keepers)))
  {
    PruneIsSafe(s, keepers);
    var t := Next(s, PruneTo(keepers));
    forall c | c in t.children ensures GoodChild(t, t.children[c]) {
      assert GoodChild(s, s.children[c]);
    }
  }

  lemma PatchKeeps(s: State, ok: bool)
    requires Inv(s) && Enabled(s, Patch(ok))
    ensures Inv(Next(s, Patch(ok)))
  {
  }

  /** What a step of one child has to respect. */
  ghost predicate Respects(s: State, before: Child, after: Child) {
    && ChildIn(s.flags, after, s.held + {""})
    && GoodChild(s, after)
    && (Fresh(before, s.target) ==> Fresh(after, s.target))
    && (AllOld(s) ==> ChildIn(s.flags, after, {s.status, ""}))
    && (before.applied == Some(s.target) ==> after.applied == Some(s.target))
  }

  lemma UpdateKeeps(s: State, c: Id, after: Child)
    requires Inv(s) && c in s.children && Respects(s, s.children[c], after)
    ensures Inv(Update(s, c, after))
  {
    var t := Update(s, c, after);
    forall d | d in t.children ensures GoodChild(t, t.children[d]) {
      assert d != c ==> GoodChild(s, s.children[d]);
    }
  }

  lemma ChildBeginKeeps(s: State, c: Id)
    requires Inv(s) && Enabled(s, ChildBegin(c))
    ensures Inv(Next(s, ChildBegin(c)))
  {
    var after := Next(s, ChildBegin(c)).children[c];
    assert GoodChild(s, s.children[c]);
    UpdateKeeps(s, c, after);
  }

  lemma ChildRenderKeeps(s: State, c: Id)
    requires Inv(s) && Enabled(s, ChildRender(c))
    ensures Inv(Next(s, ChildRender(c)))
  {
    var after := Next(s, ChildRender(c)).children[c];
    assert GoodChild(s, s.children[c]);
    UpdateKeeps(s, c, after);
  }

  lemma ChildApplyKeeps(s: State, c: Id)
    requires Inv(s) && Enabled(s, ChildApply(c))
    ensures Inv(Next(s, ChildApply(c)))
  {
    var after := Next(s, ChildApply(c)).children[c];
    assert GoodChild(s, s.children[c]);
    UpdateKeeps(s, c, after);
  }

  lemma ChildObserveKeeps(s: State, c: Id, ok: bool)
    requires Inv(s) && Enabled(s, ChildObserve(c, ok))
    ensures Inv(Next(s, ChildObserve(c, ok)))
  {
    var after := Next(s, ChildObserve(c, ok)).children[c];
    assert GoodChild(s, s.children[c]);
    UpdateKeeps(s, c, after);
  }

  lemma ChildEndKeeps(s: State, c: Id, ok: bool)
    requires Inv(s) && Enabled(s, ChildEnd(c, ok))
    ensures Inv(Next(s, ChildEnd(c, ok)))
  {
    var after := Next(s, ChildEnd(c, ok)).children[c];
    assert GoodChild(s, s.children[c]);
    UpdateKeeps(s, c, after);
  }

  lemma RolloutKeeps(s: State, c: Id, pods: set<Snap>)
    requires Inv(s) && Enabled(s, Rollout(c, pods))
    ensures Inv(Next(s, Rollout(c, pods)))
  {
    var after := Next(s, Rollout(c, pods)).children[c];
    assert GoodChild(s, s.children[c]);
    UpdateKeeps(s, c, after);
  }

  /** Every step of every controller, and of the environment, keeps the invariant. */
  lemma StepKeeps(s: State, st: Step)
    requires Inv(s) && Enabled(s, st)
    ensures Inv(Next(s, st))
  {
    match st
    case Rotate(name) => RotateKeeps(s, name);
    case Push(ok) => PushKeeps(s, ok);
    case Release => ReleaseKeeps(s);
    case PruneTo(keepers) => PruneKeeps(s, keepers);
    case Patch(ok) => PatchKeeps(s, ok);
    case ChildBegin(c) => ChildBeginKeeps(s, c);
    case ChildRender(c) => ChildRenderKeeps(s, c);
    case ChildApply(c) => ChildApplyKeeps(s, c);
    case ChildObserve(c, ok) => ChildObserveKeeps(s, c, ok);
    case ChildEnd(c, ok) => ChildEndKeeps(s, c, ok);
    case Rollout(c, pods) => RolloutKeeps(s, c, pods);
    case Begin(ids) => BeginKeeps(s, ids);
    case Read(early) => ReadKeeps(s, early);
    case Hold => HoldKeeps(s);
    case Write => WriteKeeps(s);
    case Unready(ok) => UnreadyKeeps(s, ok);
    case Foreign(others) => ForeignKeeps(s, others);
  }
}
