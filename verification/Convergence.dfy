/** Once the inputs stand still and calls stop failing, the controllers and the
    workloads reach a state in which every secret asked for is tracked and held,
    nothing else is, and no further reconcile changes anything. */
module Convergence {
  import opened Secrets
  import opened Wrappers
  import opened Rotation
  import opened RotationRefinement
  import opened Passes
  import ChildController
  import UndisturbedReconcile

  datatype Act =
    | ParentAct
    | ChildAct(c: Id)
    | RestartPod(c: Id, pod: Snapshot)    // a pod that runs an old template is replaced

  predicate Can(s: State, a: Act) {
    match a
    case ParentAct => true
    case ChildAct(c) => c in s.children
    case RestartPod(c, pod) => c in s.children && s.children[c].tmpl.Some? && pod in s.children[c].pods
                               && s.children[c].tmpl != Some(pod)
  }

  function Do(s: State, a: Act): State
    requires Can(s, a)
  {
    match a
    case ParentAct => ParentPass(s, true)
    case ChildAct(c) => ChildPass(s, c)
    case RestartPod(c, pod) =>
      With(s, c, s.children[c].(pods := s.children[c].pods - {pod} + {s.children[c].tmpl.value}))
  }

  /** No reconcile is under way, and the transport secret exists. */
  ghost predicate Quiet(s: State) {
    && Wf(s) && NamesApart(s)
    && s.run.None? && s.env.transport != ""
    && "" !in s.held && "" !in s.heldAC && "" !in s.heldIAC
    && forall c :: c in s.children ==> s.children[c].run.None?
  }

  lemma DoIsRun(s: State, a: Act)
    requires Quiet(s) && Can(s, a)
    ensures Reaches(s, Do(s, a))
  {
    match a
    case ParentAct => UndisturbedReconcile.ParentPassIsRun(s, true);
    case ChildAct(c) => ChildController.ChildPassIsRun(s, c);
    case RestartPod(c, pod) => ReachesOne(s, Rollout(c, s.children[c].pods - {pod} + {s.children[c].tmpl.value}));
  }

  lemma EarlyPassKeepsQuiet(s: State)
    requires Quiet(s)
    ensures Quiet(EarlyPass(s))
  {
  }

  lemma FullPassKeepsChildren(s: State)
    requires Quiet(s)
    ensures var t := FullPass(s, true);
            forall c :: c in t.children ==> c in Ids(t.env) && WfChild(t.children[c]) && t.children[c].run.None?
  {
    PushedKnown(s.children, Ids(s.env), Wanted(s.env));
    var t := FullPass(s, true);
    forall c | c in t.children ensures c in Ids(t.env) && WfChild(t.children[c]) && t.children[c].run.None? {
      assert c in Ids(s.env) && t.children[c] == PushedChild(s.children, c, Wanted(s.env));
    }
  }

  lemma FullPassKeepsNames(s: State)
    requires Quiet(s)
    ensures NamesApart(FullPass(s, true))
  {
  }

  lemma PassKeepsQuiet(s: State)
    requires Quiet(s)
    ensures Quiet(ParentPass(s, true))
  {
    if s.status.hash == Some(WantedConfig(s.env)) {
      FullPassKeepsChildren(s);
      FullPassKeepsNames(s);
    } else {
      EarlyPassKeepsQuiet(s);
    }
  }

  lemma DoKeepsQuiet(s: State, a: Act)
    requires Quiet(s) && Can(s, a)
    ensures Quiet(Do(s, a))
  {
    if a == ParentAct { PassKeepsQuiet(s); }
  }

  // ---------------------------------------------------------------------
  // What is still to be done

  function Bit(b: bool): nat { if b then 1 else 0 }

  function ToPush(s: State): set<Id> {
    set c | c in Ids(s.env) && (c !in s.children || s.children[c].spec != Wanted(s.env))
  }

  function StaleHashes(s: State): set<Id> {
    set c | c in s.children && s.children[c].hash != Some(Snap(s, s.children[c]))
  }

  function StaleTemplates(s: State): set<Id> {
    set c | c in s.children && s.children[c].tmpl != Some(Snap(s, s.children[c]))
  }

  function OldPods(s: State): set<(Id, Snapshot)> {
    set c, p | c in s.children && p in s.children[c].pods && s.children[c].tmpl != Some(p) :: (c, p)
  }

  function Unobserved(s: State): set<Id> {
    set c | c in s.children && s.children[c].obs != s.children[c].gen
  }

  function Unapplied(s: State): set<Id> {
    set c | c in s.children && s.children[c].applied != Some(s.children[c].ann)
  }

  function Unrecorded(s: State): set<Id> {
    set c | c in s.children && Rolled(s.children[c].ann, Snap(s, s.children[c])) !in s.children[c].rolled
  }

  /** Current secrets without the finalizer, and other secrets with it. */
  function Strays(held: set<Name>, current: set<Name>): nat {
    |Real(current) - held| + |held - current|
  }

  datatype Measure = Measure(config: nat, specs: nat, hashes: nat, templates: nat, pods: nat, reports: nat,
                             tracking: nat)

  function Left(s: State): Measure {
    var e := s.env;
    Measure(
      Bit(s.cfg != WantedConfig(e)) + Bit(s.status.hash != Some(WantedConfig(e))),
      |ToPush(s)|, |StaleHashes(s)|, |StaleTemplates(s)|, |OldPods(s)|,
      |Unobserved(s)| + |Unapplied(s)| + |Unrecorded(s)|,
      Bit(s.status.transport != e.transport) + Bit(s.status.notif != e.notif)
      + Bit(s.status.ac != e.ac) + Bit(s.status.iac != e.iac)
      + Strays(s.held, {e.transport, e.notif}) + Strays(s.heldAC, {e.ac}) + Strays(s.heldIAC, {e.iac}))
  }

  /** Lexicographic order. */
  predicate Less(a: Measure, b: Measure) {
    || a.config < b.config
    || (a.config == b.config && (a.specs < b.specs
    || (a.specs == b.specs && (a.hashes < b.hashes
    || (a.hashes == b.hashes && (a.templates < b.templates
    || (a.templates == b.templates && (a.pods < b.pods
    || (a.pods == b.pods && (a.reports < b.reports
    || (a.reports == b.reports && a.tracking < b.tracking)))))))))))
  }

  lemma Smaller<T>(a: set<T>, b: set<T>)
    requires a <= b
    ensures |a| <= |b| && (a != b ==> |a| < |b|)
  {
    assert b == a + (b - a);
    if a != b { assert b - a != {}; }
  }

  // ---------------------------------------------------------------------
  // Every act that changes something leaves less to be done

  lemma RestartIsLocal(s: State, c: Id, pod: Snapshot)
    requires Can(s, RestartPod(c, pod))
    ensures var t := Do(s, RestartPod(c, pod));
            ToPush(t) == ToPush(s) && StaleHashes(t) == StaleHashes(s) && StaleTemplates(t) == StaleTemplates(s)
  {
  }

  lemma RestartLeavesLess(s: State, c: Id, pod: Snapshot)
    requires Quiet(s) && Can(s, RestartPod(c, pod))
    ensures Less(Left(Do(s, RestartPod(c, pod))), Left(s))
  {
    var t := Do(s, RestartPod(c, pod));
    RestartIsLocal(s, c, pod);
    assert OldPods(t) == OldPods(s) - {(c, pod)};
    assert (c, pod) in OldPods(s);
    Smaller(OldPods(t), OldPods(s));
  }

  /** A pass over one child moves it only as its own status says. */
  lemma ChildPassIsLocal(s: State, c: Id)
    requires c in s.children
    ensures var t := ChildPass(s, c);
            && t.env == s.env && t.cfg == s.cfg && t.children.Keys == s.children.Keys && ToPush(t) == ToPush(s)
            && (forall d :: d in s.children && d != c ==> t.children[d] == s.children[d])
            && t.children[c] == PassedChild(s, s.children[c]) && Snap(t, t.children[c]) == Snap(s, s.children[c])
  {
  }

  lemma HashLeavesLess(s: State, c: Id)
    requires Quiet(s) && c in s.children && s.children[c].hash != Some(Snap(s, s.children[c]))
    ensures Less(Left(ChildPass(s, c)), Left(s))
  {
    var t := ChildPass(s, c);
    ChildPassIsLocal(s, c);
    assert StaleHashes(t) == StaleHashes(s) - {c} && c in StaleHashes(s);
    Smaller(StaleHashes(t), StaleHashes(s));
  }

  lemma TemplateLeavesLess(s: State, c: Id)
    requires Quiet(s) && c in s.children && s.children[c].hash == Some(Snap(s, s.children[c])) != s.children[c].tmpl
    ensures Less(Left(ChildPass(s, c)), Left(s))
  {
    var t := ChildPass(s, c);
    ChildPassIsLocal(s, c);
    assert StaleHashes(t) == StaleHashes(s);
    assert StaleTemplates(t) == StaleTemplates(s) - {c} && c in StaleTemplates(s);
    Smaller(StaleTemplates(t), StaleTemplates(s));
  }

  ghost predicate UpToDate(s: State, c: Id) {
    c in s.children && s.children[c].hash == s.children[c].tmpl == Some(Snap(s, s.children[c]))
  }

  lemma ReportKeepsWork(s: State, c: Id)
    requires UpToDate(s, c)
    ensures var t := ChildPass(s, c);
            && ToPush(t) == ToPush(s) && StaleHashes(t) == StaleHashes(s)
            && StaleTemplates(t) == StaleTemplates(s) && OldPods(t) == OldPods(s)
  {
    ChildPassIsLocal(s, c);
  }

  lemma ReportsShrink(s: State, c: Id)
    requires UpToDate(s, c)
    ensures var t := ChildPass(s, c);
            Unobserved(t) <= Unobserved(s) && Unapplied(t) <= Unapplied(s) && Unrecorded(t) <= Unrecorded(s)
  {
    ChildPassIsLocal(s, c);
  }

  lemma SomeReportShrinks(s: State, c: Id)
    requires UpToDate(s, c) && PassedChild(s, s.children[c]) != s.children[c]
    ensures var t := ChildPass(s, c);
            Unobserved(t) != Unobserved(s) || Unapplied(t) != Unapplied(s) || Unrecorded(t) != Unrecorded(s)
  {
    var t := ChildPass(s, c);
    ChildPassIsLocal(s, c);
    var before, after := s.children[c], PassedChild(s, s.children[c]);
    if after.obs != before.obs { assert c in Unobserved(s) && c !in Unobserved(t); }
    else if after.applied != before.applied { assert c in Unapplied(s) && c !in Unapplied(t); }
    else { assert c in Unrecorded(s) && c !in Unrecorded(t); }
  }

  lemma ReportLeavesLess(s: State, c: Id)
    requires UpToDate(s, c)
    ensures ChildPass(s, c) == s || Less(Left(ChildPass(s, c)), Left(s))
  {
    var t := ChildPass(s, c);
    if PassedChild(s, s.children[c]) == s.children[c] {
      assert t.children == s.children;
    } else {
      ReportKeepsWork(s, c);
      ReportsShrink(s, c);
      SomeReportShrinks(s, c);
      Smaller(Unobserved(t), Unobserved(s));
      Smaller(Unapplied(t), Unapplied(s));
      Smaller(Unrecorded(t), Unrecorded(s));
    }
  }

  lemma ChildLeavesLess(s: State, c: Id)
    requires Quiet(s) && c in s.children
    ensures ChildPass(s, c) == s || Less(Left(ChildPass(s, c)), Left(s))
  {
    if s.children[c].hash != Some(Snap(s, s.children[c])) { HashLeavesLess(s, c); }
    else if s.children[c].tmpl != Some(Snap(s, s.children[c])) { TemplateLeavesLess(s, c); }
    else { ReportLeavesLess(s, c); }
  }

  lemma StraysShrink(held: set<Name>, held': set<Name>, current: set<Name>)
    requires Real(current) <= held' && held' <= held + Real(current) && "" !in held
    ensures Strays(held', current) <= Strays(held, current)
    ensures held' != held ==> Strays(held', current) < Strays(held, current)
  {
    assert Real(current) - held' == {};
    Smaller(held' - current, held - current);
    if held' != held && held' - current == held - current {
      var n :| (n in held' && n !in held) || (n in held && n !in held');
      assert n in held ==> n !in held - current;
      assert n in held' && n !in held;
      assert n in Real(current) - held;
    }
  }

  /** The status and the holders after a pass that pushes nothing new. */
  lemma FullPassTidies(s: State)
    requires Quiet(s)
    ensures var t := FullPass(s, true); var e := s.env;
            && Real({e.transport, e.notif}) <= t.held <= s.held + Real({e.transport, e.notif})
            && Real({e.ac}) <= t.heldAC <= s.heldAC + Real({e.ac})
            && Real({e.iac}) <= t.heldIAC <= s.heldIAC + Real({e.iac})
            && t.status.transport in {s.status.transport, e.transport} && t.status.notif in {s.status.notif, e.notif}
            && t.status.ac in {s.status.ac, e.ac} && t.status.iac in {s.status.iac, e.iac}
  {
  }

  lemma NothingToPush(s: State)
    requires Wf(s) && ToPush(s) == {}
    ensures PushAll(s.children, Ids(s.env), Wanted(s.env)) == s.children
  {
    var ids, i := Ids(s.env), Wanted(s.env);
    PushedKnown(s.children, ids, i);
    forall c | c in ids ensures c in s.children && PushedChild(s.children, c, i) == s.children[c] {
      assert c !in ToPush(s);
      assert WfChild(s.children[c]);
    }
  }

  lemma EverythingPushed(s: State)
    requires Quiet(s)
    ensures ToPush(FullPass(s, true)) == {}
  {
    PushedKnown(s.children, Ids(s.env), Wanted(s.env));
  }

  /** A pass that leaves children, config and hash alone leaves the same work to them. */
  lemma SameChildrenSameWork(s: State, t: State)
    requires t.children == s.children && t.env == s.env && t.cfg == s.cfg
    ensures ToPush(t) == ToPush(s) && StaleHashes(t) == StaleHashes(s) && StaleTemplates(t) == StaleTemplates(s)
            && OldPods(t) == OldPods(s)
    ensures Unobserved(t) == Unobserved(s) && Unapplied(t) == Unapplied(s) && Unrecorded(t) == Unrecorded(s)
  {
    assert forall c :: c in s.children ==> Snap(t, t.children[c]) == Snap(s, s.children[c]);
  }

  lemma TrackingShrinks(s: State)
    requires Quiet(s)
    ensures var t := FullPass(s, true);
            && Left(t).tracking <= Left(s).tracking
            && (t.held != s.held || t.heldAC != s.heldAC || t.heldIAC != s.heldIAC
                || t.status != s.status.(hash := t.status.hash) ==>
                  Left(t).tracking < Left(s).tracking)
  {
    var t, e := FullPass(s, true), s.env;
    FullPassTidies(s);
    StraysShrink(s.held, t.held, {e.transport, e.notif});
    StraysShrink(s.heldAC, t.heldAC, {e.ac});
    StraysShrink(s.heldIAC, t.heldIAC, {e.iac});
  }

  lemma TidyLeavesLess(s: State)
    requires Quiet(s) && s.status.hash == Some(WantedConfig(s.env)) && s.cfg == WantedConfig(s.env) && ToPush(s) == {}
    ensures FullPass(s, true) == s || Less(Left(FullPass(s, true)), Left(s))
  {
    NothingToPush(s);
    SameChildrenSameWork(s, FullPass(s, true));
    TrackingShrinks(s);
  }

  lemma ParentLeavesLess(s: State)
    requires Quiet(s)
    ensures ParentPass(s, true) == s || Less(Left(ParentPass(s, true)), Left(s))
  {
    if s.status.hash == Some(WantedConfig(s.env)) && s.cfg == WantedConfig(s.env) {
      if ToPush(s) == {} {
        TidyLeavesLess(s);
      } else {
        EverythingPushed(s);
        Smaller(ToPush(FullPass(s, true)), ToPush(s));
      }
    }
  }

  /** The termination measure: whatever an act changes, it leaves less to be done. */
  lemma LeavesLess(s: State, a: Act)
    requires Quiet(s) && Can(s, a)
    ensures Quiet(Do(s, a))
    ensures Do(s, a) == s || Less(Left(Do(s, a)), Left(s))
  {
    DoKeepsQuiet(s, a);
    match a
    case ParentAct => ParentLeavesLess(s);
    case ChildAct(c) => ChildLeavesLess(s, c);
    case RestartPod(c, pod) => RestartLeavesLess(s, c, pod);
  }

  // ---------------------------------------------------------------------
  // The fixed point

  ghost predicate Settled(s: State) {
    var e, i := s.env, Wanted(s.env);
    && s.cfg == WantedConfig(e)
    && s.status == Status(e.transport, e.notif, e.ac, e.iac, Some(WantedConfig(e)))
    && s.held == Real({e.transport, e.notif}) && s.heldAC == Real({e.ac}) && s.heldIAC == Real({e.iac})
    && forall c :: c in Ids(e) ==> c in s.children && SettledChild(s, s.children[c], i)
  }

  ghost predicate SettledChild(s: State, c: Child, i: Inputs) {
    && c.spec == i && c.applied == Some(i) && c.gen == c.obs
    && c.hash == c.tmpl == Some(Snap(s, c)) && c.pods <= {Snap(s, c)}
  }

  ghost predicate Still(s: State) {
    forall a :: Can(s, a) ==> Do(s, a) == s
  }

  lemma RestartChanges(s: State, c: Id, pod: Snapshot)
    requires c in s.children && pod in s.children[c].pods
    ensures Can(s, RestartPod(c, pod)) ==> Do(s, RestartPod(c, pod)) != s
  {
    if Can(s, RestartPod(c, pod)) {
      assert pod !in Do(s, RestartPod(c, pod)).children[c].pods;
    }
  }

  lemma StillChild(s: State, c: Id)
    requires Quiet(s) && Still(s) && c in s.children
    ensures SettledChild(s, s.children[c], s.children[c].ann)
  {
    var child := s.children[c];
    assert Can(s, ChildAct(c)) && Do(s, ChildAct(c)).children[c] == child;
    assert WfChild(child) && child.tmpl == Some(Snap(s, child));
    forall p | p in child.pods ensures p == Snap(s, child) {
      RestartChanges(s, c, p);
    }
  }

  lemma EarlyPassMoves(s: State)
    ensures s.status.hash != Some(WantedConfig(s.env)) ==> EarlyPass(s) != s
  {
    assert EarlyPass(s).status.hash == Some(WantedConfig(s.env));
  }

  /** A state that no act can change is settled. */
  lemma StillIsSettled(s: State)
    requires Quiet(s) && Still(s)
    ensures Settled(s)
  {
    var ids, i := Ids(s.env), Wanted(s.env);
    assert Can(s, ParentAct) && ParentPass(s, true) == s;
    EarlyPassMoves(s);
    assert FullPass(s, true) == s;
    PushedKnown(s.children, ids, i);
    forall c | c in ids ensures c in s.children && SettledChild(s, s.children[c], i) {
      assert s.children[c] == PushedChild(s.children, c, i);
      StillChild(s, c);
    }
    FullPassTidies(s);
    NoLeak(s, true);
  }

  lemma SettledPass(s: State)
    requires Quiet(s) && Settled(s)
    ensures ParentPass(s, true) == s
  {
    assert ToPush(s) == {};
    NothingToPush(s);
    FullPassTidies(s);
    NoLeak(s, true);
  }

  lemma SettledKnown(s: State, c: Id)
    requires Quiet(s) && Settled(s) && c in s.children
    ensures SettledChild(s, s.children[c], Wanted(s.env)) && WfChild(s.children[c])
  {
    assert c in Ids(s.env);
  }

  /** In a settled state no pod is old, and another reconcile of any controller
      changes nothing, except that a child's history may be written down. */
  lemma SettledIsStill(s: State, a: Act)
    requires Quiet(s) && Settled(s) && Unrecorded(s) == {}
    ensures Can(s, a) ==> !a.RestartPod? && Do(s, a) == s
  {
    SettledPass(s);
    if Can(s, a) && !a.ParentAct? {
      var c := a.c;
      SettledKnown(s, c);
      if a.ChildAct? {
        var child := s.children[c];
        assert c !in Unrecorded(s);
        assert child.rolled + {Rolled(child.ann, Snap(s, child))} == child.rolled;
        assert PassedChild(s, child) == child;
        assert ChildPass(s, c).children == s.children;
      }
    }
  }

  // ---------------------------------------------------------------------
  // Getting there

  /** From every quiet state a settled one is reached by the controllers. */
  lemma {:induction false} ConvergesBy(s: State, m: Measure) returns (t: State)
    requires Quiet(s) && m == Left(s)
    ensures Reaches(s, t) && Quiet(t) && Still(t) && t.env == s.env
    decreases m.config, m.specs, m.hashes, m.templates, m.pods, m.reports, m.tracking
  {
    if Still(s) {
      ReachesSelf(s);
      t := s;
    } else {
      var a :| Can(s, a) && Do(s, a) != s;
      LeavesLess(s, a);
      DoIsRun(s, a);
      t := ConvergesBy(Do(s, a), Left(Do(s, a)));
      ReachesTrans(s, Do(s, a), t);
    }
  }

  lemma Converges(s: State) returns (t: State)
    requires Quiet(s)
    ensures Reaches(s, t) && Quiet(t) && Still(t) && Settled(t) && t.env == s.env
  {
    t := ConvergesBy(s, Left(s));
    StillIsSettled(t);
  }

  // ---------------------------------------------------------------------
  // Every fair schedule gets there

  /** The n-th act of the schedule is taken; an act that is not possible is skipped. */
  ghost predicate Takes(trace: nat -> State, schedule: nat -> Act, n: nat) {
    var u, a := trace(n), schedule(n);
    trace(n + 1) == if Can(u, a) then Do(u, a) else u
  }

  ghost predicate Follows(trace: nat -> State, schedule: nat -> Act) {
    forall n: nat :: Takes(trace, schedule, n)
  }

  /** Some time from n on, act a is taken or the state has moved on without it. */
  ghost predicate TakenFrom(trace: nat -> State, schedule: nat -> Act, n: nat, a: Act) {
    exists j: nat :: j >= n && (schedule(j) == a || trace(j) != trace(n))
  }

  /** Act a, if it would change the state at n, is taken some time, unless the state moves on without it. */
  ghost predicate FairTo(trace: nat -> State, schedule: nat -> Act, n: nat, a: Act) {
    Can(trace(n), a) && Do(trace(n), a) != trace(n) ==> TakenFrom(trace, schedule, n, a)
  }

  ghost predicate Fair(trace: nat -> State, schedule: nat -> Act) {
    forall n: nat, a: Act :: FairTo(trace, schedule, n, a)
  }

  /** The last moment before the state moves on. */
  lemma {:induction false} LastBeforeChange(trace: nat -> State, i: nat, j: nat) returns (k: nat)
    requires i <= j && trace(j) != trace(i)
    ensures i <= k < j && trace(k) == trace(i) != trace(k + 1)
    decreases j - i
  {
    if trace(j - 1) == trace(i) { k := j - 1; } else { k := LastBeforeChange(trace, i, j - 1); }
  }

  /** A state that some act would change does change, by act k of the schedule. */
  lemma FirstChange(trace: nat -> State, schedule: nat -> Act, i: nat) returns (k: nat, j: nat)
    requires Follows(trace, schedule) && Fair(trace, schedule) && !Still(trace(i))
    ensures j == k + 1 > i && Can(trace(i), schedule(k)) && trace(j) == Do(trace(i), schedule(k)) != trace(i)
  {
    var u := trace(i);
    var a :| Can(u, a) && Do(u, a) != u;
    assert FairTo(trace, schedule, i, a) && TakenFrom(trace, schedule, i, a);
    var n: nat :| n >= i && (schedule(n) == a || trace(n) != u);
    if trace(n) == u { k := n; } else { k := LastBeforeChange(trace, i, n); }
    assert Takes(trace, schedule, k);
    j := k + 1;
  }

  /** v is quiet, and less is left there. */
  ghost predicate Progress(u: State, v: State) { Quiet(v) && Less(Left(v), Left(u)) }

  lemma LeavesLessTo(u: State, a: Act, v: State)
    requires Quiet(u) && Can(u, a) && v == Do(u, a) != u
    ensures Progress(u, v)
  {
    LeavesLess(u, a);
  }

  /** And then there is less left. */
  lemma MovesOn(trace: nat -> State, schedule: nat -> Act, i: nat) returns (j: nat)
    requires Follows(trace, schedule) && Fair(trace, schedule) && Quiet(trace(i)) && !Still(trace(i))
    ensures j > i && Progress(trace(i), trace(j))
  {
    var k;
    k, j := FirstChange(trace, schedule, i);
    LeavesLessTo(trace(i), schedule(k), trace(j));
  }

  lemma {:induction false} SettlesBy(trace: nat -> State, schedule: nat -> Act, i: nat, m: Measure) returns (n: nat)
    requires Follows(trace, schedule) && Fair(trace, schedule) && Quiet(trace(i)) && m == Left(trace(i))
    ensures n >= i && Quiet(trace(n)) && Still(trace(n))
    decreases m.config, m.specs, m.hashes, m.templates, m.pods, m.reports, m.tracking
  {
    if Still(trace(i)) {
      n := i;
    } else {
      var j := MovesOn(trace, schedule, i);
      n := SettlesBy(trace, schedule, j, Left(trace(j)));
    }
  }

  lemma {:induction false} StaysStill(trace: nat -> State, schedule: nat -> Act, n: nat, m: nat)
    requires Follows(trace, schedule) && n <= m && Still(trace(n))
    ensures trace(m) == trace(n)
    decreases m - n
  {
    if n < m {
      StaysStill(trace, schedule, n, m - 1);
      assert Takes(trace, schedule, m - 1);
    }
  }

  lemma DoKeepsEnv(s: State, a: Act)
    requires Can(s, a)
    ensures Do(s, a).env == s.env
  {
  }

  lemma {:induction false} TraceKeepsEnv(trace: nat -> State, schedule: nat -> Act, n: nat)
    requires Follows(trace, schedule)
    ensures trace(n).env == trace(0).env
  {
    if n > 0 {
      TraceKeepsEnv(trace, schedule, n - 1);
      assert Takes(trace, schedule, n - 1);
      if Can(trace(n - 1), schedule(n - 1)) { DoKeepsEnv(trace(n - 1), schedule(n - 1)); }
    }
  }

  lemma StillForGood(trace: nat -> State, schedule: nat -> Act, n: nat)
    requires Follows(trace, schedule) && Quiet(trace(n)) && Still(trace(n))
    ensures Settled(trace(n)) && trace(n).env == trace(0).env
    ensures forall m: nat :: m >= n ==> trace(m) == trace(n)
  {
    StillIsSettled(trace(n));
    TraceKeepsEnv(trace, schedule, n);
    forall m: nat | m >= n ensures trace(m) == trace(n) { StaysStill(trace, schedule, n, m); }
  }

  /** Every fair schedule of reconciles and pod restarts, in whatever order,
      comes to a settled state and stays there for good. */
  lemma FairScheduleSettles(trace: nat -> State, schedule: nat -> Act) returns (n: nat)
    requires Quiet(trace(0)) && Follows(trace, schedule) && Fair(trace, schedule)
    ensures Settled(trace(n)) && trace(n).env == trace(0).env
    ensures forall m: nat :: m >= n ==> trace(m) == trace(n)
  {
    n := SettlesBy(trace, schedule, 0, Left(trace(0)));
    StillForGood(trace, schedule, n);
  }

  // ---------------------------------------------------------------------
  // From every reachable state

  ghost predicate Clean(s: State) {
    && Wf(s) && NamesApart(s)
    && "" !in s.held && "" !in s.heldAC && "" !in s.heldIAC
  }

  lemma GoKeepsClean(s: State, ok: bool)
    requires Clean(s) && Enabled(s, Go(ok))
    ensures var t := GoParent(s, ok); "" !in t.held && "" !in t.heldAC && "" !in t.heldIAC
  {
  }

  lemma {:induction false} RunKeepsClean(s: State, steps: seq<Step>)
    requires Clean(s) && IsRun(s, steps) && AllApart(s, steps)
    ensures Clean(After(s, steps))
    decreases |steps|
  {
    if steps != [] {
      StepKeepsWf(s, steps[0]);
      StepKeepsNamesApart(s, steps[0]);
      if steps[0].Go? { GoKeepsClean(s, steps[0].ok); }
      RunKeepsClean(Next(s, steps[0]), steps[1..]);
    }
  }

  function Busy(s: State): set<Id> {
    set c | c in s.children && s.children[c].run.Some?
  }

  /** Reconciles that are under way come to an end. */
  lemma {:induction false} Quieten(s: State) returns (t: State)
    requires Clean(s) && s.run.None? && s.env.transport != ""
    ensures Reaches(s, t) && Quiet(t) && t.env == s.env
    decreases Busy(s)
  {
    if Busy(s) == {} {
      ReachesSelf(s);
      assert forall c :: c in s.children && s.children[c].run.Some? ==> c in Busy(s);
      t := s;
    } else {
      var c :| c in Busy(s);
      var st := ChildEnd(c, false);
      StepKeepsWf(s, st);
      ReachesOne(s, st);
      assert Busy(Next(s, st)) == Busy(s) - {c};
      t := Quieten(Next(s, st));
      ReachesTrans(s, Next(s, st), t);
    }
  }

  /** Whatever has happened before, with rotations at any pace, failed calls and
      lost status patches: the controllers can still get to a settled state. */
  lemma ConvergesFromAnywhere(s: State, steps: seq<Step>) returns (t: State)
    requires Init(s) && IsRun(s, steps) && AllApart(s, steps) && After(s, steps).env.transport != ""
    ensures Reaches(After(s, steps), t) && Still(t) && Settled(t) && t.env == After(s, steps).env
  {
    RunKeepsClean(s, steps);
    var u := After(s, steps);
    var v := u;
    ReachesSelf(u);
    if u.run.Some? {
      v := Next(u, End(false));
      StepKeepsWf(u, End(false));
      ReachesOne(u, End(false));
    }
    var w := Quieten(v);
    ReachesTrans(u, v, w);
    t := Converges(w);
    ReachesTrans(u, w, t);
  }

  /** Whatever has happened before: once the reconciles under way have ended
      and the inputs stand still, every fair schedule settles. */
  lemma SettlesFromAnywhere(s: State, steps: seq<Step>, trace: nat -> State, schedule: nat -> Act) returns (n: nat)
    requires Init(s) && IsRun(s, steps) && AllApart(s, steps) && trace(0) == After(s, steps)
    requires trace(0).env.transport != "" && trace(0).run.None?
    requires forall c :: c in trace(0).children ==> trace(0).children[c].run.None?
    requires Follows(trace, schedule) && Fair(trace, schedule)
    ensures Settled(trace(n)) && trace(n).env == trace(0).env
    ensures forall m: nat :: m >= n ==> trace(m) == trace(n)
  {
    RunKeepsClean(s, steps);
    n := FairScheduleSettles(trace, schedule);
  }
}
