/** No secret loses its consumer finalizer while it is in use, whatever the
    interleaving and wherever reconciles stop. */
module RotationSafety {
  import opened Secrets
  import opened Wrappers
  import opened Rotation
  import opened RotationRefinement
  import Slot

  /** How the environment asks for new names along a run. */
  datatype Discipline =
    | Anything
    | TrackedFirst              // only once the name asked for last is tracked
    | Calmly(k: Kind)           // see Calm

  ghost predicate Allows(d: Discipline, s: State, st: Step) {
    match d
    case Anything => true
    case TrackedFirst =>
      Apart(s, st) && forall k :: Asked(k, s, st) != Target(k, s) ==> TrackedName(k, s.status) == Target(k, s)
    case Calmly(k) => Apart(s, st) && Calm(k, s, st)
  }

  /** Every step of the run is one that the discipline allows. */
  ghost predicate Along(d: Discipline, s: State, steps: seq<Step>)
    requires IsRun(s, steps)
    decreases |steps|
  {
    steps == [] || (Allows(d, s, steps[0]) && Along(d, Next(s, steps[0]), steps[1..]))
  }

  /** The secrets of one kind that a pod template names. */
  function NamedBy(k: Kind, v: Snapshot): set<Name> {
    match k
    case Transport => {v.transport, v.parent.inputs.transport}
    case Notification => {v.parent.inputs.notif}
    case AppCredential => {v.ac, v.parent.inputs.ac}
    case SpecCredential => {v.ac}
  }

  /** Secret n is named by the spec of a child, by its workload or one of its
      pods, by a reconcile of the child under way, or by the parent's config.
      Only for SpecCredential the parent's config, and what templates take
      from it, is left aside. */
  ghost predicate InUse(k: Kind, s: State, n: Name) {
    && n != ""
    && ((k != SpecCredential && Sel(k, s.cfg.inputs) == n)
        || exists c :: c in s.children && UsedBy(k, s.children[c], n))
  }

  ghost predicate UsedBy(k: Kind, c: Child, n: Name) {
    || Sel(k, c.spec) == n
    || (c.tmpl.Some? && n in NamedBy(k, c.tmpl.value))
    || (exists p :: p in c.pods && n in NamedBy(k, p))
    || (c.run.Some? && Sel(k, c.run.value.spec) == n)
    || (c.run.Some? && c.run.value.snap.Some? && n in NamedBy(k, c.run.value.snap.value))
  }

  ghost predicate Secured(k: Kind, s: State) {
    forall n :: InUse(k, s, n) ==> n in Holders(k, s)
  }

  // ---------------------------------------------------------------------

  ghost predicate InContext(k: Kind, s: State) {
    && Wf(s)
    && (!Credential(k) ==> NamesApart(s))
    && (NeedsCorrection(k) ==> s.variant == Corrected)
  }

  ghost predicate Good(k: Kind, s: State) { InContext(k, s) && Slot.Inv(View(k, s)) }

  lemma InitIsGood(k: Kind, s: State)
    requires Init(s) && (NeedsCorrection(k) ==> s.variant == Corrected)
    ensures Good(k, s)
  {
    assert ViewChildren(k, s.children) == map[];
  }

  lemma ViewKeepsInv(v: Slot.State, a: Option<Slot.Step>, w: Slot.State)
    requires Slot.Inv(v) && Simulates(v, a, w)
    ensures Slot.Inv(w)
  {
    if a.Some? { Slot.StepKeeps(v, a.value); }
  }

  lemma StepKeepsVariant(s: State, st: Step)
    requires Enabled(s, st)
    ensures Next(s, st).variant == s.variant
  {
    if st.Go? { GoKeepsRest(s, st.ok); }
  }

  lemma StepKeepsContext(k: Kind, s: State, st: Step)
    requires InContext(k, s) && Enabled(s, st) && Apart(s, st)
    ensures InContext(k, Next(s, st))
  {
    StepKeepsWf(s, st);
    StepKeepsVariant(s, st);
    if !Credential(k) { StepKeepsNamesApart(s, st); }
  }

  lemma StepKeepsInv(k: Kind, s: State, st: Step)
    requires InContext(k, s) && Slot.Inv(View(k, s)) && Enabled(s, st) && Calm(k, s, st)
    ensures Slot.Inv(View(k, Next(s, st)))
  {
    var a := StepRefines(k, s, st);
    ViewKeepsInv(View(k, s), a, View(k, Next(s, st)));
  }

  lemma StepKeepsGood(k: Kind, s: State, st: Step)
    requires Good(k, s) && Enabled(s, st) && Allows(Calmly(k), s, st)
    ensures Good(k, Next(s, st))
  {
    StepKeepsContext(k, s, st);
    StepKeepsInv(k, s, st);
  }

  lemma UsedByView(k: Kind, s: State, c: Id, n: Name)
    requires c in s.children && UsedBy(k, s.children[c], n) && n != ""
    requires Slot.ChildIn(Flags(k), ViewChild(k, s.children[c]), Holders(k, s) + {""})
    ensures n in Holders(k, s)
  {
    var child := s.children[c];
    if p :| p in child.pods && n in NamedBy(k, p) {
      assert ViewSnap(k, p) in ViewPods(k, child.pods);
    }
  }

  lemma GoodIsSecured(k: Kind, s: State)
    requires Good(k, s)
    ensures Secured(k, s)
  {
    forall n | InUse(k, s, n) ensures n in Holders(k, s) {
      if !(k != SpecCredential && Sel(k, s.cfg.inputs) == n) {
        var c :| c in s.children && UsedBy(k, s.children[c], n);
        assert View(k, s).children[c] == ViewChild(k, s.children[c]);
        UsedByView(k, s, c, n);
      }
    }
  }

  lemma {:induction false} RunKeepsGood(k: Kind, s: State, steps: seq<Step>)
    requires Good(k, s) && IsRun(s, steps) && Along(Calmly(k), s, steps)
    ensures Good(k, After(s, steps))
    decreases |steps|
  {
    if steps != [] {
      StepKeepsGood(k, s, steps[0]);
      RunKeepsGood(k, Next(s, steps[0]), steps[1..]);
    }
  }

  /** Safety over all runs: as the code is written, for the transport secret, and
      for the application credential where the children's own specs carry it;
      in the corrected variant also for the notifications secret, and for the
      credential wherever it is named. */
  lemma Safety(k: Kind, s: State, steps: seq<Step>)
    requires Init(s) && IsRun(s, steps) && Along(Calmly(k), s, steps)
    requires NeedsCorrection(k) ==> s.variant == Corrected
    ensures Secured(k, After(s, steps))
  {
    InitIsGood(k, s);
    RunKeepsGood(k, s, steps);
    GoodIsSecured(k, After(s, steps));
  }

  lemma ReadyIsAt(k: Kind, t: State, c: Id)
    requires Good(k, t) && t.run.Some? && Idx(t.run.value.pc) > 7 && t.run.value.ready
    requires Sel(k, CurrentInputs(t.run.value)) == Target(k, t) && c in t.children
    ensures Slot.At(Flags(k), ViewChild(k, t.children[c]), Target(k, t))
  {
    var v := View(k, t);
    var r := v.run.value;
    assert Slot.GoodRun(v, r) && c in r.ids;
    var i :| 0 <= i < |r.ids| && r.ids[i] == c;
    assert r.cur == Some(v.target) && i < r.next;
    assert v.children[c].applied == Some(v.target) && Slot.GoodChild(v, v.children[c]);
  }

  lemma AtNames(k: Kind, child: Child, t: Name, n: Name)
    requires Slot.At(Flags(k), ViewChild(k, child), t) && UsedBy(k, child, n)
    ensures n == t
  {
    if p :| p in child.pods && n in NamedBy(k, p) {
      assert ViewSnap(k, p) in ViewPods(k, child.pods);
    }
  }

  /** When the parent has found every service ready for the secret asked for,
      every child is entirely on that secret: spec, workload and all pods. */
  lemma ReadyMeansRolledOut(k: Kind, s: State, steps: seq<Step>, c: Id, n: Name)
    requires Init(s) && IsRun(s, steps) && Along(Calmly(k), s, steps)
    requires NeedsCorrection(k) ==> s.variant == Corrected
    requires var t := After(s, steps);
             && t.run.Some? && Idx(t.run.value.pc) > 7 && t.run.value.ready
             && Ready(t.run.value) && Sel(k, CurrentInputs(t.run.value)) == Target(k, t)
             && c in t.children && UsedBy(k, t.children[c], n)
    ensures n == Target(k, After(s, steps))
  {
    InitIsGood(k, s);
    RunKeepsGood(k, s, steps);
    ReadyIsAt(k, After(s, steps), c);
    AtNames(k, After(s, steps).children[c], Target(k, After(s, steps)), n);
  }
}
