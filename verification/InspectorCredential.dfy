/** The inspector's application credential: held by the parent, used by the
    pods of the inspector.  The parent takes the inspector for ready as soon as
    its generation has been observed, whether or not its pods run it. */
module InspectorCredential {
  import opened Secrets
  import opened Wrappers
  import opened Rotation
  import opened Passes
  import opened PassSafety
  import Convergence

  /** The inspector as far as its credential goes: spec and generation, the
      generation it observed, and what its template and pods were rendered for. */
  datatype Inspector = Inspector(spec: Name, gen: nat, obs: nat, tmpl: Option<Name>, pods: set<Name>)

  datatype World = World(s: State, inspector: Option<Inspector>)

  /** CreateOrUpdate of the inspector. */
  function Pushed(i: Option<Inspector>, name: Name): Inspector {
    if i.None? then Inspector(name, 1, 0, None, {})
    else if i.value.spec == name then i.value
    else i.value.(spec := name, gen := i.value.gen + 1)
  }

  /** The parent's whole readiness test on the inspector. */
  predicate CountsAsReady(i: Inspector) { i.gen == i.obs }

  datatype Step =
    | Ask(name: Name)          // the Ironic asks for another inspector credential
    | Parent(others: bool)     // a reconcile of the parent; others says whether the agent counts as ready
    | Stop                     // a reconcile of the inspector that ends before the template
    | Apply                    // one that applies the template
    | Roll(pods: set<Name>)
    | Elsewhere(s: State)      // whatever else happens

  predicate Enabled(w: World, st: Step) {
    match st
    case Stop => w.inspector.Some?
    case Apply => w.inspector.Some?
    case Roll(pods) =>
      w.inspector.Some? && w.inspector.value.tmpl.Some?
          && pods <= w.inspector.value.pods + {w.inspector.value.tmpl.value}
    case Elsewhere(s) => s.env.iac == w.s.env.iac && s.status.iac == w.s.status.iac && s.heldIAC == w.s.heldIAC
    case _ => true
  }

  /** The parent returns before it comes to its services. */
  predicate ReturnsEarly(s: State) {
    s.env.transport == "" || s.status.hash != Some(WantedConfig(s.env))
  }

  /** The inspector's credential as the parent finds everything ready. */
  predicate Releases(w: World, others: bool) {
    ReadyInPass(w.s, CountsAsReady(Pushed(w.inspector, w.s.env.iac)) && others)
  }

  function Next(w: World, st: Step): World
    requires Enabled(w, st)
  {
    match st
    case Ask(name) => w.(s := w.s.(env := w.s.env.(iac := name)))
    case Parent(others) =>
      if ReturnsEarly(w.s) then w.(s := ParentPass(w.s, false))
      else
        var i := Pushed(w.inspector, w.s.env.iac);
        World(ParentPass(w.s, CountsAsReady(i) && others), Some(i))
    case Stop => w.(inspector := Some(w.inspector.value.(obs := w.inspector.value.gen)))
    case Apply =>
      var i := w.inspector.value;
      w.(inspector := Some(i.(obs := i.gen, tmpl := Some(i.spec))))
    case Roll(pods) => w.(inspector := Some(w.inspector.value.(pods := pods)))
    case Elsewhere(s) => w.(s := s)
  }

  /** The template or a pod was rendered for the credential. */
  predicate LingersOn(w: World, n: Name) {
    n != "" && w.inspector.Some? && (w.inspector.value.tmpl == Some(n) || n in w.inspector.value.pods)
  }

  predicate InUse(w: World, n: Name) {
    LingersOn(w, n) || (n != "" && w.inspector.Some? && w.inspector.value.spec == n)
  }

  ghost predicate Secured(w: World) { forall n :: InUse(w, n) ==> n in w.s.heldIAC }

  // ---------------------------------------------------------------------
  // One reconcile of the parent

  lemma KeptIff(s: State, ok: bool, n: Name)
    requires n != ""
    ensures n in FullPass(s, ok).heldIAC <==>
              n == s.env.iac || (n in s.heldIAC && n == s.status.iac && !ReadyInPass(s, ok))
  {
  }

  lemma TrackedAfterPass(s: State, ok: bool)
    ensures FullPass(s, ok).status.iac ==
              if s.status.iac != "" && !ReadyInPass(s, ok) then s.status.iac else s.env.iac
    ensures FullPass(s, ok).env == s.env
  {
  }

  lemma EarlyKeeps(s: State)
    requires ReturnsEarly(s)
    ensures var t := ParentPass(s, false); t.heldIAC == s.heldIAC && t.env == s.env && t.status.iac == s.status.iac
  {
  }

  /** The exact condition, in any state whatever: a reconcile of the parent
      keeps the inspector's credentials held if and only if it returns early,
      or what template and pods were rendered for is the credential asked for,
      or the tracked one while not everything counts as ready. */
  lemma PassIsSafeIff(w: World, others: bool)
    requires Secured(w)
    ensures Secured(Next(w, Parent(others))) <==>
              ReturnsEarly(w.s)
              || forall n :: LingersOn(w, n) ==>
                   n == w.s.env.iac || (n == w.s.status.iac && !Releases(w, others))
  {
    var t := Next(w, Parent(others));
    if ReturnsEarly(w.s) {
      EarlyKeeps(w.s);
    } else {
      var ok := CountsAsReady(Pushed(w.inspector, w.s.env.iac)) && others;
      forall n ensures InUse(t, n) <==> n != "" && (LingersOn(w, n) || n == w.s.env.iac) {}
      forall n | n != ""
        ensures n in t.s.heldIAC <==>
                  n == w.s.env.iac || (n in w.s.heldIAC && n == w.s.status.iac && !Releases(w, others))
      {
        KeptIff(w.s, ok, n);
      }
    }
  }

  // ---------------------------------------------------------------------
  // Runs

  /** The next credential is asked for only when the last rotation is over. */
  predicate Calm(w: World, st: Step) {
    st.Ask? ==> w.s.status.iac == w.s.env.iac
  }

  /** Every credential that the template or a pod was rendered for. */
  function Rendered(w: World): (names: set<Name>)
    ensures forall n :: n in names <==> LingersOn(w, n)
  {
    if w.inspector.None? then {}
    else Real(w.inspector.value.pods + (if w.inspector.value.tmpl.Some? then {w.inspector.value.tmpl.value} else {}))
  }

  /** When the parent finds everything ready, the inspector's template and pods
      are for the credential asked for. */
  predicate Honest(w: World, st: Step) {
    st.Parent? && !ReturnsEarly(w.s) && Releases(w, st.others) ==>
      forall n :: n in Rendered(w) ==> n == w.s.env.iac
  }

  ghost predicate Inv(w: World) {
    && Secured(w)
    && forall n :: InUse(w, n) ==> n == w.s.status.iac || n == w.s.env.iac
  }

  lemma ParentKeepsInv(w: World, others: bool)
    requires Inv(w) && Honest(w, Parent(others))
    ensures Inv(Next(w, Parent(others)))
  {
    PassIsSafeIff(w, others);
    if ReturnsEarly(w.s) {
      EarlyKeeps(w.s);
      assert forall n :: InUse(Next(w, Parent(others)), n) ==> InUse(w, n);
    } else {
      TrackedAfterPass(w.s, CountsAsReady(Pushed(w.inspector, w.s.env.iac)) && others);
      forall n | LingersOn(w, n) ensures n == w.s.env.iac || (n == w.s.status.iac && !Releases(w, others)) {
        assert InUse(w, n) && n in Rendered(w);
      }
    }
  }

  lemma StepKeepsInv(w: World, st: Step)
    requires Inv(w) && Enabled(w, st) && Calm(w, st) && Honest(w, st)
    ensures Inv(Next(w, st))
  {
    if st.Parent? {
      ParentKeepsInv(w, st.others);
    } else {
      forall n | InUse(Next(w, st), n) ensures InUse(w, n) {}
    }
  }

  ghost predicate IsRun(w: World, steps: seq<Step>)
    decreases |steps|
  {
    steps == [] || (Enabled(w, steps[0]) && IsRun(Next(w, steps[0]), steps[1..]))
  }

  ghost function After(w: World, steps: seq<Step>): World
    requires IsRun(w, steps)
    decreases |steps|
  {
    if steps == [] then w else After(Next(w, steps[0]), steps[1..])
  }

  ghost predicate CalmAndHonest(w: World, steps: seq<Step>)
    requires IsRun(w, steps)
    decreases |steps|
  {
    steps == [] || (Calm(w, steps[0]) && Honest(w, steps[0]) && CalmAndHonest(Next(w, steps[0]), steps[1..]))
  }

  lemma {:induction false} RunKeepsInv(w: World, steps: seq<Step>)
    requires Inv(w) && IsRun(w, steps) && CalmAndHonest(w, steps)
    ensures Inv(After(w, steps))
    decreases |steps|
  {
    if steps != [] {
      StepKeepsInv(w, steps[0]);
      RunKeepsInv(Next(w, steps[0]), steps[1..]);
    }
  }

  /** Were the parent to find everything ready only when the inspector's pods
      have caught up, as it does for API and conductors, every credential in use
      would stay held along one-at-a-time rotations. */
  lemma SafeWhenHonest(w: World, steps: seq<Step>)
    requires w.inspector.None? && IsRun(w, steps) && CalmAndHonest(w, steps)
    ensures Secured(After(w, steps))
  {
    RunKeepsInv(w, steps);
  }

  // ---------------------------------------------------------------------
  // It is not

  /** Everything has settled on credential a. */
  ghost predicate SettledOn(w: World, a: Name) {
    && Convergence.Quiet(w.s) && Convergence.Settled(w.s)
    && w.inspector.Some? && CountsAsReady(w.inspector.value)
    && w.s.env.iac == w.inspector.value.spec == a && w.inspector.value.tmpl == Some(a) && w.inspector.value.pods == {a}
  }

  lemma SettledServicesAreReady(s: State, ok: bool)
    requires Convergence.Quiet(s) && Convergence.Settled(s)
    ensures ReadyInPass(s, ok) <==> ok
  {
    forall c | c in s.children ensures s.children[c].obs <= s.children[c].gen { assert WfChild(s.children[c]); }
    forall c | c in Ids(s.env)
      ensures c in s.children && s.children[c].spec == Wanted(s.env) && ChildReady(s.children[c], Wanted(s.env))
    {
      assert Convergence.SettledChild(s, s.children[c], Wanted(s.env));
    }
    ReadyBeforePass(s, ok);
  }

  lemma SameServices(s: State, t: State, ok: bool)
    requires Convergence.Quiet(s) && Convergence.Settled(s)
    requires t.children == s.children && t.env == s.env.(iac := t.env.iac)
    ensures ReadyInPass(t, ok) <==> ok
  {
    SettledServicesAreReady(s, ok);
    assert Ids(t.env) == Ids(s.env) && Wanted(t.env) == Wanted(s.env);
  }

  /** The parent has pushed credential b, and every other service is ready. */
  lemma FirstPass(w: World, a: Name, b: Name)
    requires SettledOn(w, a) && a != "" && a != b
    ensures var u := Next(Next(w, Ask(b)), Parent(true));
            && u.s.env == w.s.env.(iac := b) && !ReturnsEarly(u.s)
            && u.inspector == Some(w.inspector.value.(spec := b, gen := w.inspector.value.gen + 1))
            && u.s.children == w.s.children
  {
    var v := Next(w, Ask(b)).s;
    Convergence.SettledPass(w.s);
    assert PushAll(v.children, Ids(v.env), Wanted(v.env)) == PushAll(w.s.children, Ids(w.s.env), Wanted(w.s.env));
    assert FullPass(w.s, true).children == w.s.children;
  }

  /** From every settled state, every rotation of the inspector's credential
      can take the finalizer off the one its pods still run: it suffices that
      the inspector observes its new generation before its pods are replaced. */
  lemma AnyRotationCanLose(w: World, a: Name, b: Name)
    requires SettledOn(w, a) && a != "" && a != b
    ensures var steps := [Ask(b), Parent(true), Apply, Parent(true)];
            && IsRun(w, steps)
            && InUse(After(w, steps), a) && a !in After(w, steps).s.heldIAC
  {
    FirstPass(w, a, b);
    var v := Next(w, Ask(b));
    var u := Next(v, Parent(true));
    var x := Next(u, Apply);
    var y := Next(x, Parent(true));
    assert Releases(x, true) by { SameServices(w.s, x.s, true); }
    KeptIff(x.s, true, a);
    var steps := [Ask(b), Parent(true), Apply, Parent(true)];
    assert steps[1..] == [Parent(true), Apply, Parent(true)];
    assert steps[1..][1..] == [Apply, Parent(true)];
    assert steps[1..][1..][1..] == [Parent(true)];
    assert IsRun(y, []) && After(y, []) == y;
    assert IsRun(x, [Parent(true)]) && After(x, [Parent(true)]) == y;
    assert IsRun(u, steps[1..][1..]) && After(u, steps[1..][1..]) == y;
    assert IsRun(v, steps[1..]) && After(v, steps[1..]) == y;
  }
}
