/** Where the rotation code, as it is written, lets a secret go while it is
    still in use: runs from the initial state that end in such a state. */
module RotationGaps {
  import opened Secrets
  import opened Wrappers
  import opened Rotation
  import opened RotationRefinement
  import opened RotationSafety
  import opened Passes
  import opened PassSafety
  import ChildController
  import UndisturbedReconcile

  /** t can be reached from s under the discipline. */
  ghost predicate ReachesUnder(d: Discipline, s: State, t: State) {
    exists steps :: IsRun(s, steps) && Along(d, s, steps) && After(s, steps) == t
  }

  lemma {:induction false} AlongComposes(d: Discipline, s: State, a: seq<Step>, b: seq<Step>)
    requires IsRun(s, a) && Along(d, s, a) && IsRun(After(s, a), b) && Along(d, After(s, a), b)
    ensures IsRun(s, a + b) && Along(d, s, a + b) && After(s, a + b) == After(After(s, a), b)
    decreases |a|
  {
    if a == [] {
      assert a + b == b;
    } else {
      assert (a + b)[0] == a[0] && (a + b)[1..] == a[1..] + b;
      AlongComposes(d, Next(s, a[0]), a[1..], b);
    }
  }

  lemma {:induction false} InternalIsAlong(d: Discipline, s: State, steps: seq<Step>)
    requires IsRun(s, steps) && forall st :: st in steps ==> Internal(st)
    ensures Along(d, s, steps)
    decreases |steps|
  {
    if steps != [] {
      assert Internal(steps[0]);
      assert forall k :: Asked(k, s, steps[0]) == Target(k, s);
      assert Allows(d, s, steps[0]);
      InternalIsAlong(d, Next(s, steps[0]), steps[1..]);
    }
  }

  lemma ThenReach(d: Discipline, s: State, t: State, u: State)
    requires ReachesUnder(d, s, t) && Reaches(t, u)
    ensures ReachesUnder(d, s, u)
  {
    var a :| IsRun(s, a) && Along(d, s, a) && After(s, a) == t;
    var b :| IsRun(t, b) && After(t, b) == u && forall st :: st in b ==> Internal(st);
    InternalIsAlong(d, t, b);
    AlongComposes(d, s, a, b);
  }

  lemma ThenStep(d: Discipline, s: State, t: State, st: Step)
    requires ReachesUnder(d, s, t) && Enabled(t, st) && Allows(d, t, st)
    ensures ReachesUnder(d, s, Next(t, st))
  {
    var a :| IsRun(s, a) && Along(d, s, a) && After(s, a) == t;
    var b := [st];
    assert b[1..] == [];
    assert IsRun(Next(t, st), []) && Along(d, Next(t, st), []);
    assert IsRun(t, b) && After(t, b) == Next(t, st);
    assert Along(d, t, b);
    AlongComposes(d, s, a, b);
  }

  lemma Start(d: Discipline, s: State)
    ensures ReachesUnder(d, s, s)
  {
    assert IsRun(s, []) && Along(d, s, []) && After(s, []) == s;
  }

  // ---------------------------------------------------------------------
  // Notifications

  /** The loss, from any state: two reconciles of the code as written, the
      first of which returns early on the changed input hash, keep the
      finalizer of the tracked notifications secret exactly when no other
      one is asked for, be any service ready or not. */
  lemma TwoReconcilesForget(s: State, ok: bool, ok': bool)
    requires s.variant == AsWritten && s.env.transport != "" && s.status.hash != Some(WantedConfig(s.env))
    requires NamesApart(s) && s.status.notif in s.held && s.status.notif != ""
    ensures var t := ParentPass(ParentPass(s, ok), ok');
            && (s.status.notif in t.held <==> s.env.notif == s.status.notif)
            && t.status.notif == s.env.notif
  {
    var u := EarlyPass(s);
    assert ParentPass(s, ok) == u && ParentPass(u, ok') == FullPass(u, ok');
    NoLeak(u, ok');
    assert u.status.transport == EarlyTransport(s);
  }

  /** The corrected variant forgets it only when it is no longer asked for and
      every service is ready. */
  lemma CorrectedRemembers(s: State, ok: bool, ok': bool)
    requires s.variant == Corrected && s.env.transport != "" && s.status.hash != Some(WantedConfig(s.env))
    requires NamesApart(s) && s.status.notif in s.held && s.status.notif != ""
    ensures s.status.notif in ParentPass(ParentPass(s, ok), ok').held
            <==> s.env.notif == s.status.notif || !ReadyInPass(s, ok')
  {
    var u := EarlyPass(s);
    assert ParentPass(s, ok) == u && ParentPass(u, ok') == FullPass(u, ok');
    assert NamesApart(u) && ReadyInPass(u, ok') == ReadyInPass(s, ok');
    NotificationKeptIff(u, ok', s.status.notif);
  }

  // ---------------------------------------------------------------------
  // Runs with the API as the only child

  /** All but that child. */
  datatype Cluster = Cluster(
    env: Env, status: Status, held: set<Name>, heldAC: set<Name>, transports: set<Name>, notifs: set<Name>)

  function Solo(w: Cluster, child: Option<Child>): State {
    State(AsWritten, w.env, w.status, w.held, w.heldAC, {},
          if w.status.hash.Some? then w.status.hash.value else Config(Inputs("", "", ""), 0),
          if child.None? then map[] else map[API := child.value], None, w.transports, w.notifs)
  }

  function Names(t: Name, n: Name, ac: Name): Env { Env(t, n, ac, "", 0, []) }

  function Empty(e: Env, transports: set<Name>, notifs: set<Name>): Cluster {
    Cluster(e, Status("", "", "", "", None), {}, {}, transports, notifs)
  }

  function Nothing(): State { Solo(Empty(Names("", "", ""), {}, {}), None) }

  lemma PushOnlyOne(children: map<Id, Child>, c: Id, inputs: Inputs)
    ensures PushAll(children, [c], inputs) == children[c := PushedChild(children, c, inputs)]
  {
    var ids := [c];
    assert ids[..|ids| - 1] == [];
  }

  /** The cluster after the pass that returns early on a changed hash. */
  function EarlyOf(w: Cluster): Cluster {
    var st := w.status;
    w.(status := Status(if st.transport == "" then w.env.transport else st.transport, w.env.notif,
                        st.ac, st.iac, Some(WantedConfig(w.env))),
       held := HoldIfNamed(Manage(w.held, w.env.transport), w.env.notif))
  }

  lemma SoloEarly(w: Cluster, child: Option<Child>)
    requires w.env.transport != "" && w.status.hash != Some(WantedConfig(w.env))
    ensures ParentPass(Solo(w, child), true) == Solo(EarlyOf(w), child)
  {
  }

  function Pushed(child: Option<Child>, i: Inputs): Child {
    if child.None? then Child(i, i, 1, 0, None, None, None, {}, {}, None)
    else if child.value.spec == i then child.value.(ann := i)
    else child.value.(spec := i, ann := i, gen := child.value.gen + 1)
  }

  /** The cluster after the pass that runs to its end. */
  function FullOf(w: Cluster, child: Option<Child>): Cluster {
    var e, st := w.env, w.status;
    var ready := ChildReady(Pushed(child, Wanted(e)), Wanted(e));
    var ac := FinalizeRotation(HoldIfNamed(w.heldAC, e.ac), st.ac, e.ac, ready);
    var t := FinalizeRotation(HoldIfNamed(Manage(w.held, e.transport), e.notif), st.transport, e.transport, ready);
    var n := FinalizeRotation(t.held, st.notif, e.notif, ready);
    w.(status := Status(t.tracked, n.tracked, ac.tracked, "", st.hash),
       held := Prune(n.held, {t.tracked, e.transport, n.tracked, e.notif}),
       heldAC := Prune(ac.held, {ac.tracked, e.ac}))
  }

  lemma SoloFull(w: Cluster, child: Option<Child>)
    requires w.env.transport != "" && w.status.hash == Some(WantedConfig(w.env))
    requires w.env.conductors == [] && w.env.iac == w.status.iac == ""
    ensures var s, i := Solo(w, child), Wanted(w.env);
            && ParentPass(s, true) == Solo(FullOf(w, child), Some(Pushed(child, i)))
            && ReadyInPass(s, true) == ChildReady(Pushed(child, i), i)
  {
    var s, i := Solo(w, child), Wanted(w.env);
    assert Ids(w.env) == [API];
    PushOnlyOne(s.children, API, i);
    var after := map[API := Pushed(child, i)];
    assert PushAll(s.children, Ids(w.env), i) == after;
    assert AllReady(after, Ids(w.env), i) == ChildReady(Pushed(child, i), i) by {
      assert API in Ids(w.env);
    }
    assert Prune(s.heldIAC, {""}) == {};
  }

  lemma SoloChild(w: Cluster, child: Child)
    requires w.status.hash.Some?
    ensures var s := Solo(w, Some(child)); ChildPass(s, API) == Solo(w, Some(PassedChild(s, child)))
  {
  }

  /** The pod template that the API's child computes from a spec and the parent's config. */
  function Template(spec: Inputs, cfg: Inputs): Snapshot {
    Snapshot(spec.transport, spec.ac, Config(cfg, 0), 0)
  }

  function Tmpl(i: Inputs): Snapshot { Template(i, i) }

  /** The API child with pods of i, before it reported them; it last reported said. */
  function Rolling(i: Inputs, gen: nat, said: Option<Inputs>, rolled: set<Rolled>): Child {
    Child(i, i, gen, gen, Some(Tmpl(i)), said, Some(Tmpl(i)), {Tmpl(i)}, rolled, None)
  }

  /** Two passes of the child render and apply the template for its spec and the config. */
  lemma PassesTwice(d: Discipline, s0: State, w: Cluster, child: Child)
    returns (rolled: set<Rolled>, said: Option<Inputs>)
    requires w.status.hash == Some(WantedConfig(w.env)) && w.env.other == 0 && child.run.None?
    requires child.hash != Some(Template(child.spec, Wanted(w.env)))
    requires ReachesUnder(d, s0, Solo(w, Some(child)))
    ensures var t := Template(child.spec, Wanted(w.env));
            && said == (if child.pods <= {t} then Some(child.ann) else child.applied)
            && ReachesUnder(d, s0, Solo(w, Some(child.(hash := Some(t), obs := child.gen, tmpl := Some(t),
                                                       applied := said, rolled := rolled))))
  {
    var t := Template(child.spec, Wanted(w.env));
    var s := Solo(w, Some(child));
    assert Snap(s, child) == t;
    ChildController.ChildPassIsRun(s, API);
    SoloChild(w, child);
    ThenReach(d, s0, s, ChildPass(s, API));
    var c1 := child.(hash := Some(t), obs := child.gen);
    var s1 := Solo(w, Some(c1));
    ChildController.ChildPassIsRun(s1, API);
    SoloChild(w, c1);
    ThenReach(d, s0, s1, ChildPass(s1, API));
    var c2 := PassedChild(s1, c1);
    rolled, said := c2.rolled, c2.applied;
  }

  /** The pods are replaced by pods of the template. */
  lemma Restarts(d: Discipline, s0: State, w: Cluster, child: Child)
    requires child.tmpl.Some? && ReachesUnder(d, s0, Solo(w, Some(child)))
    ensures ReachesUnder(d, s0, Solo(w, Some(child.(pods := {child.tmpl.value}))))
  {
    var s := Solo(w, Some(child));
    ReachesOne(s, Rollout(API, {child.tmpl.value}));
    ThenReach(d, s0, s, Next(s, Rollout(API, {child.tmpl.value})));
    assert Next(s, Rollout(API, {child.tmpl.value})) == Solo(w, Some(child.(pods := {child.tmpl.value})));
  }

  /** A freshly pushed spec is rolled out by two passes of the child and a pod
      restart; unless there were no pods at all, the child has not reported it. */
  lemma RollsOut(d: Discipline, s0: State, w: Cluster, child: Child) returns (rolled: set<Rolled>)
    requires w.status.hash == Some(WantedConfig(w.env)) && w.env.other == 0
    requires child.spec == child.ann == Wanted(w.env) && child.run.None? && child.hash != Some(Tmpl(Wanted(w.env)))
    requires child.pods == {} || exists p :: p in child.pods && p != Tmpl(Wanted(w.env))
    requires ReachesUnder(d, s0, Solo(w, Some(child)))
    ensures var i := Wanted(w.env);
            var said := if child.pods == {} then Some(i) else child.applied;
            ReachesUnder(d, s0, Solo(w, Some(Rolling(i, child.gen, said, rolled))))
  {
    var i := Wanted(w.env);
    var said;
    rolled, said := PassesTwice(d, s0, w, child);
    var c := child.(hash := Some(Tmpl(i)), obs := child.gen, tmpl := Some(Tmpl(i)), applied := said, rolled := rolled);
    Restarts(d, s0, w, c);
    assert c.(pods := {Tmpl(i)}) == Rolling(i, child.gen, said, rolled);
  }

  /** The parent's two passes after the environment asked for new inputs. */
  lemma TwoPasses(d: Discipline, s0: State, w: Cluster, child: Option<Child>)
    requires w.env.transport != "" && w.status.hash != Some(WantedConfig(w.env))
    requires w.env.conductors == [] && w.env.iac == w.status.iac == ""
    requires ReachesUnder(d, s0, Solo(w, child))
    ensures ReachesUnder(d, s0, Solo(EarlyOf(w), child))
    ensures var u := FullPass(Solo(EarlyOf(w), child), true);
            ReachesUnder(d, s0, u) && u == Solo(FullOf(EarlyOf(w), child), Some(Pushed(child, Wanted(w.env))))
  {
    var s := Solo(w, child);
    UndisturbedReconcile.ParentPassIsRun(s, true);
    SoloEarly(w, child);
    ThenReach(d, s0, s, ParentPass(s, true));
    var s' := Solo(EarlyOf(w), child);
    UndisturbedReconcile.ParentPassIsRun(s', true);
    SoloFull(EarlyOf(w), child);
    ThenReach(d, s0, s', ParentPass(s', true));
  }

  // ---------------------------------------------------------------------
  // The first deployment

  function First(t: Name, n: Name): Cluster {
    var e := Names(t, n, "");
    Cluster(e, Status(t, n, "", "", Some(WantedConfig(e))), {t} + Real({n}), {}, {t}, Real({n}))
  }

  /** It asks for a transport secret and maybe a notifications secret. */
  lemma FirstNames(d: Discipline, t: Name, n: Name)
    requires t != "" && t != n
    ensures ReachesUnder(d, Nothing(), Solo(Empty(Names(t, n, ""), {t}, Real({n})), None))
  {
    var s0 := Nothing();
    Start(d, s0);
    ThenStep(d, s0, s0, RotateTransport(t));
    var s1 := Next(s0, RotateTransport(t));
    ThenStep(d, s0, s1, SetNotif(n));
    assert Next(s1, SetNotif(n)) == Solo(Empty(Names(t, n, ""), {t}, Real({n})), None);
  }

  lemma FirstPush(d: Discipline, t: Name, n: Name)
    requires t != "" && t != n
    ensures ReachesUnder(d, Nothing(), Solo(First(t, n), Some(Pushed(None, Wanted(Names(t, n, ""))))))
  {
    FirstNames(d, t, n);
    var w := Empty(Names(t, n, ""), {t}, Real({n}));
    TwoPasses(d, Nothing(), w, None);
    FirstHolders(t, n);
  }

  lemma FirstHolders(t: Name, n: Name)
    requires t != "" && t != n
    ensures FullOf(EarlyOf(Empty(Names(t, n, ""), {t}, Real({n}))), None) == First(t, n)
  {
    var held := HoldIfNamed(Manage({}, t), n);
    assert held == {t} + Real({n}) && HoldIfNamed(Manage(held, t), n) == held;
    assert Prune(held, {t, t, n, n}) == held;
    assert Prune({}, {"", ""}) == {};
  }

  /** The API child runs pods of the first inputs and has said so. */
  lemma FirstRollout(d: Discipline, t: Name, n: Name) returns (child: Child)
    requires t != "" && t != n
    ensures var i := Wanted(Names(t, n, "")); child == Rolling(i, 1, Some(i), child.rolled)
    ensures ReachesUnder(d, Nothing(), Solo(First(t, n), Some(child)))
  {
    var i := Wanted(Names(t, n, ""));
    FirstPush(d, t, n);
    var rolled := RollsOut(d, Nothing(), First(t, n), Pushed(None, i));
    child := Rolling(i, 1, Some(i), rolled);
  }

  lemma PodInUse(k: Kind, s: State, p: Snapshot, n: Name)
    requires API in s.children && p in s.children[API].pods && n in NamedBy(k, p) && n != ""
    ensures InUse(k, s, n) && Lingers(k, s, n)
  {
    assert UsedBy(k, s.children[API], n) && LingersIn(k, s.children[API], n);
  }

  // ---------------------------------------------------------------------
  // Notifications: reachable loss

  /** A reachable loss of the code as written, for any names, although the
      notifications secret was changed only once the previous one was tracked:
      pods still use the previous secret, and nothing holds it. */
  lemma NotificationsLost(t: Name, n1: Name, n2: Name) returns (u: State)
    requires "" !in {t, n1, n2} && t !in {n1, n2} && n1 != n2
    ensures Init(Nothing()) && Nothing().variant == AsWritten && ReachesUnder(Calmly(Notification), Nothing(), u)
    ensures InUse(Notification, u, n1) && n1 !in u.held
  {
    var d := Calmly(Notification);
    var child := FirstRollout(d, t, n1);
    var s1 := Solo(First(t, n1), Some(child));
    ThenStep(d, Nothing(), s1, SetNotif(n2));
    var w := First(t, n1).(env := Names(t, n2, ""), notifs := Real({n1}) + Real({n2}));
    var s2 := Solo(w, Some(child));
    assert Next(s1, SetNotif(n2)) == s2;
    TwoPasses(d, Nothing(), w, Some(child));
    SoloEarly(w, Some(child));
    TwoReconcilesForget(s2, true, true);
    u := FullPass(Solo(EarlyOf(w), Some(child)), true);
    PodInUse(Notification, u, Tmpl(Wanted(Names(t, n1, ""))), n1);
  }

  // ---------------------------------------------------------------------
  // Transport: a second rotation before the first is tracked

  /** The first rotation is rolled out, but not yet tracked. */
  lemma RolledNotTracked(a: Name, b: Name) returns (w: Cluster, child: Child)
    requires "" !in {a, b} && a != b
    ensures ReachesUnder(Anything, Nothing(), Solo(w, Some(child)))
    ensures w.env == Names(b, "", "") && w.status == Status(a, "", "", "", Some(WantedConfig(w.env)))
    ensures w.transports == {a, b} && w.notifs == {}
    ensures child == Rolling(Wanted(w.env), 2, Some(Wanted(Names(a, "", ""))), child.rolled)
  {
    var d, s0, ia, eb := Anything, Nothing(), Wanted(Names(a, "", "")), Names(b, "", "");
    var ca := FirstRollout(d, a, "");
    var s1 := Solo(First(a, ""), Some(ca));
    ThenStep(d, s0, s1, RotateTransport(b));
    var v := First(a, "").(env := eb, transports := {a, b});
    assert Next(s1, RotateTransport(b)) == Solo(v, Some(ca));
    TwoPasses(d, s0, v, Some(ca));
    w := FullOf(EarlyOf(v), Some(ca));
    var cb := Pushed(Some(ca), Wanted(eb));
    assert Tmpl(ia) in cb.pods && Tmpl(ia) != Tmpl(Wanted(eb));
    var rolled := RollsOut(d, s0, w, cb);
    child := Rolling(Wanted(eb), 2, Some(ia), rolled);
  }

  /** A rotation a -> b -> c, for any names: b is in use by a pod when it loses
      its finalizer, being neither asked for nor tracked. */
  lemma RapidRotationLost(a: Name, b: Name, c: Name) returns (u: State)
    requires "" !in {a, b, c} && b !in {a, c}
    ensures Init(Nothing()) && Nothing().variant == AsWritten && ReachesUnder(Anything, Nothing(), u)
    ensures InUse(Transport, u, b) && b !in u.held
  {
    var w, child := RolledNotTracked(a, b);
    var s := Solo(w, Some(child));
    ThenStep(Anything, Nothing(), s, RotateTransport(c));
    var v := w.(env := Names(c, "", ""), transports := {a, b} + {c});
    assert Next(s, RotateTransport(c)) == Solo(v, Some(child));
    TwoPasses(Anything, Nothing(), v, Some(child));
    var x := Solo(EarlyOf(v), Some(child));
    u := FullPass(x, true);
    TransportKeptIff(x, true, b);
    PodInUse(Transport, u, Tmpl(Wanted(w.env)), b);
  }

  // ---------------------------------------------------------------------
  // Application credential: switched on, and off again before the rollout

  /** The credential is switched on and rolled out, but the child has not said so. */
  lemma SwitchedOn(t: Name, ac: Name) returns (w: Cluster, child: Child)
    requires "" !in {t, ac}
    ensures ReachesUnder(TrackedFirst, Nothing(), Solo(w, Some(child)))
    ensures w.env == Names(t, "", ac) && w.status == Status(t, "", ac, "", Some(WantedConfig(w.env)))
    ensures w.transports == {t} && w.notifs == {}
    ensures child == Rolling(Wanted(w.env), 2, Some(Wanted(Names(t, "", ""))), child.rolled)
  {
    var d, s0, i0, e1 := TrackedFirst, Nothing(), Wanted(Names(t, "", "")), Names(t, "", ac);
    var c0 := FirstRollout(d, t, "");
    var s1 := Solo(First(t, ""), Some(c0));
    ThenStep(d, s0, s1, SetAC(ac));
    var v := First(t, "").(env := e1);
    assert Next(s1, SetAC(ac)) == Solo(v, Some(c0));
    TwoPasses(d, s0, v, Some(c0));
    w := FullOf(EarlyOf(v), Some(c0));
    var c1 := Pushed(Some(c0), Wanted(e1));
    assert Tmpl(i0) in c1.pods && Tmpl(i0) != Tmpl(Wanted(e1));
    var rolled := RollsOut(d, s0, w, c1);
    child := Rolling(Wanted(e1), 2, Some(i0), rolled);
  }

  /** It is switched off; the child notes its new generation and returns early. */
  lemma SwitchedOff(t: Name, ac: Name) returns (w: Cluster, child: Child)
    requires "" !in {t, ac}
    ensures ReachesUnder(TrackedFirst, Nothing(), Solo(w, Some(child)))
    ensures w.env == Names(t, "", "") && w.status == Status(t, "", ac, "", Some(WantedConfig(w.env)))
    ensures child.spec == child.ann == Wanted(w.env) && ChildReady(child, Wanted(w.env))
    ensures child.pods == {Tmpl(Wanted(Names(t, "", ac)))}
  {
    var d, s0, e0 := TrackedFirst, Nothing(), Names(t, "", "");
    var v, c1 := SwitchedOn(t, ac);
    var s := Solo(v, Some(c1));
    ThenStep(d, s0, s, SetAC(""));
    var v' := v.(env := e0);
    assert Next(s, SetAC("")) == Solo(v', Some(c1));
    TwoPasses(d, s0, v', Some(c1));
    w := FullOf(EarlyOf(v'), Some(c1));
    var c2 := Pushed(Some(c1), Wanted(e0));
    var s2 := Solo(w, Some(c2));
    ChildController.ChildPassIsRun(s2, API);
    SoloChild(w, c2);
    ThenReach(d, s0, s2, ChildPass(s2, API));
    child := PassedChild(s2, c2);
  }

  /** The applied hash that the child reported before the credential was
      switched on is the one expected after it is switched off, so the parent
      takes the child for ready while its pods still use the credential, and
      the tracked secret is released, for any names. */
  lemma SwitchedOffCredentialLost(t: Name, ac: Name) returns (u: State)
    requires "" !in {t, ac}
    ensures Init(Nothing()) && Nothing().variant == AsWritten && ReachesUnder(TrackedFirst, Nothing(), u)
    ensures InUse(SpecCredential, u, ac) && ac !in u.heldAC
  {
    var w, child := SwitchedOff(t, ac);
    var s := Solo(w, Some(child));
    UndisturbedReconcile.ParentPassIsRun(s, true);
    SoloFull(w, Some(child));
    u := ParentPass(s, true);
    ThenReach(TrackedFirst, Nothing(), s, u);
    CredentialKeptIff(s, true, ac);
    PodInUse(SpecCredential, u, Tmpl(Wanted(Names(t, "", ac))), ac);
  }

  // ---------------------------------------------------------------------
  // Application credential: rendered before it is held

  /** The code as written renders a new credential into the parent's config and
      returns before it holds it; a child that comes in between rolls it out,
      for any names and although no rotation is in flight. */
  lemma RenderedCredentialUnheld(t: Name, ac: Name) returns (u: State)
    requires "" !in {t, ac}
    ensures Init(Nothing()) && Nothing().variant == AsWritten && ReachesUnder(Calmly(AppCredential), Nothing(), u)
    ensures exists p :: API in u.children && p in u.children[API].pods && p.parent.inputs.ac == ac
    ensures InUse(AppCredential, u, ac) && ac !in u.heldAC
  {
    var d, s0, i0, e1 := Calmly(AppCredential), Nothing(), Wanted(Names(t, "", "")), Names(t, "", ac);
    var c0 := FirstRollout(d, t, "");
    var s1 := Solo(First(t, ""), Some(c0));
    ThenStep(d, s0, s1, SetAC(ac));
    var v := First(t, "").(env := e1);
    var s2 := Solo(v, Some(c0));
    assert Next(s1, SetAC(ac)) == s2;
    UndisturbedReconcile.ParentPassIsRun(s2, true);
    SoloEarly(v, Some(c0));
    ThenReach(d, s0, s2, ParentPass(s2, true));
    var w := EarlyOf(v);
    var p := Template(i0, Wanted(e1));
    var rolled, said := PassesTwice(d, s0, w, c0);
    var c1 := c0.(hash := Some(p), obs := c0.gen, tmpl := Some(p), applied := said, rolled := rolled);
    Restarts(d, s0, w, c1);
    u := Solo(w, Some(c1.(pods := {p})));
    PodInUse(AppCredential, u, p, ac);
  }
}
