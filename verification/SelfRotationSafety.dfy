/** Safety of the self-owned rotations over whole runs, and where the inspector
    falls short of it. */
module SelfRotationSafety {
  import opened Secrets
  import opened Wrappers
  import opened SelfRotation

  /** No new transport secret before the status tracks the live one. */
  ghost predicate OneAtATime(s: State, st: Step) {
    st.RotateTransport? ==> s.status.transport == s.live
  }

  ghost predicate Along(s: State, steps: seq<Step>)
    requires IsRun(s, steps)
    decreases |steps|
  {
    steps == [] || (OneAtATime(s, steps[0]) && Along(Next(s, steps[0]), steps[1..]))
  }

  /** The transport secrets that the config names, the template was computed for, or a pod runs on. */
  ghost predicate Uses(s: State, n: Name) {
    n != "" && (n == s.cfg.transport || (s.tmpl.Some? && n == s.tmpl.value.config.transport)
                || exists p :: p in s.pods && n == p.config.transport)
  }

  ghost predicate Secured(s: State) { forall n :: Uses(s, n) ==> n in s.held }

  ghost predicate UsesOnly(s: State, a: Name, b: Name) { forall n :: Uses(s, n) ==> n == a || n == b }

  ghost predicate Steady(s: State) {
    && Secured(s)
    && UsesOnly(s, s.status.transport, s.live)
    && (s.run.Some? && Idx(s.run.value.pc) > 0 ==>
          var r := s.run.value;
          r.transport == s.live || (UsesOnly(s, r.transport, r.transport)
                                    && r.transport == r.mem.transport == s.status.transport))
  }

  lemma InputKeepsSteady(s: State, st: Step)
    requires Wf(s) && Steady(s) && Enabled(s, st) && OneAtATime(s, st) && !st.Go?
    ensures Steady(Next(s, st))
  {
    var t := Next(s, st);
    assert forall n :: Uses(t, n) ==> Uses(s, n);
  }

  lemma StartKeepsSteady(s: State, ok: bool, observed: bool)
    requires Wf(s) && Steady(s) && Enabled(s, Go(ok, observed)) && Idx(s.run.value.pc) <= 3
    ensures Steady(GoRun(s, ok, observed))
  {
    var t := GoRun(s, ok, observed);
    assert forall n :: Uses(t, n) ==> Uses(s, n);
  }

  lemma RenderKeepsSteady(s: State, ok: bool, observed: bool)
    requires Wf(s) && Steady(s) && Enabled(s, Go(ok, observed)) && 4 <= Idx(s.run.value.pc) <= 6
    ensures Steady(GoRun(s, ok, observed))
  {
    var t := GoRun(s, ok, observed);
    assert forall n :: Uses(t, n) ==> Uses(s, n) || n == s.run.value.transport;
  }

  /** A ready workload uses nothing but the current secret. */
  lemma ReadyUsesCurrent(s: State)
    requires Wf(s) && s.run.Some? && s.run.value.ready
    ensures UsesOnly(s, s.run.value.transport, s.run.value.transport)
  {
  }

  lemma FinalizeKeepsSteady(s: State, ok: bool, observed: bool)
    requires Wf(s) && Apart(s) && Steady(s) && Enabled(s, Go(ok, observed)) && Idx(s.run.value.pc) >= 7
    ensures Steady(GoRun(s, ok, observed))
  {
    var t := GoRun(s, ok, observed);
    if s.run.value.ready { ReadyUsesCurrent(s); }
    assert forall n :: Uses(t, n) <==> Uses(s, n);
  }

  lemma StepKeepsSteady(s: State, st: Step)
    requires Wf(s) && Apart(s) && Steady(s) && Enabled(s, st) && OneAtATime(s, st)
    ensures Steady(Next(s, st))
  {
    if !st.Go? { InputKeepsSteady(s, st); }
    else if Idx(s.run.value.pc) <= 3 { StartKeepsSteady(s, st.ok, st.observed); }
    else if Idx(s.run.value.pc) <= 6 { RenderKeepsSteady(s, st.ok, st.observed); }
    else { FinalizeKeepsSteady(s, st.ok, st.observed); }
  }

  lemma {:induction false} RunKeepsSteady(s: State, steps: seq<Step>)
    requires Wf(s) && Steady(s) && IsRun(s, steps) && Along(s, steps) && Apart(After(s, steps))
    ensures Steady(After(s, steps))
    decreases |steps|
  {
    if steps != [] {
      RunNamesGrow(s, steps);
      RunNamesGrow(Next(s, steps[0]), steps[1..]);
      StepKeepsWf(s, steps[0]);
      StepKeepsSteady(s, steps[0]);
      RunKeepsSteady(Next(s, steps[0]), steps[1..]);
    }
  }

  /** Over every run with one transport rotation in flight at a time, whatever
      reconciles stop early and whatever patches fail: each transport secret
      that the config names, the template is for, or a pod runs on carries the
      finalizer. */
  lemma Safety(s: State, steps: seq<Step>)
    requires Init(s) && IsRun(s, steps) && Along(s, steps) && Apart(After(s, steps))
    ensures Secured(After(s, steps))
  {
    RunKeepsSteady(s, steps);
  }

  // ---------------------------------------------------------------------
  // No finalizer leaks

  ghost predicate LeakFree(s: State) {
    s.run.Some? && s.run.value.pc == Finished ==>
      var r := s.run.value; s.held <= {r.mem.transport, r.transport, r.mem.notif, r.notif}
  }

  lemma {:induction false} RunKeepsLeakFree(s: State, steps: seq<Step>)
    requires LeakFree(s) && IsRun(s, steps)
    ensures LeakFree(After(s, steps))
    decreases |steps|
  {
    if steps != [] { RunKeepsLeakFree(Next(s, steps[0]), steps[1..]); }
  }

  /** After any history, rapid rotations and failed reconciles included: once a
      reconcile has run to its end and its status is patched, only the tracked
      and the current secrets carry the finalizer, and the current one does. */
  lemma NoLeak(s: State)
    requires Reachable(s) && Apart(s) && s.run.Some? && s.run.value.pc == Finished
    ensures var t := Next(s, End(true));
            && t.held <= {t.status.transport, s.run.value.transport, t.status.notif, s.run.value.notif}
            && s.run.value.transport in t.held
  {
    ReachableWf(s);
    var s0, steps :| Init(s0) && IsRun(s0, steps) && After(s0, steps) == s;
    RunKeepsLeakFree(s0, steps);
  }

  // ---------------------------------------------------------------------
  // The inspector's init containers

  /** A template was computed for the secret the status tracks, or its init containers name that secret. */
  ghost predicate Follows(s: State, p: Pod) {
    p.config.transport != "" && (s.status.transport == "" || p.config.transport == s.status.transport
                                 || p.named == s.status.transport)
  }

  ghost predicate AllFollow(s: State) {
    s.kind == Inspector ==> (s.tmpl.Some? ==> Follows(s, s.tmpl.value)) && forall p :: p in s.pods ==> Follows(s, p)
  }

  lemma PatchKeepsFollowing(s: State)
    requires Wf(s) && Steady(s) && AllFollow(s) && s.run.Some?
    ensures AllFollow(Next(s, End(true)))
  {
    var r, t := s.run.value, Next(s, End(true));
    if s.kind == Inspector && t.status.transport != s.status.transport {
      if s.status.transport != "" { ReadyUsesCurrent(s); }
      if s.tmpl.Some? { assert Uses(s, s.tmpl.value.config.transport); }
      forall p | p in s.pods ensures Follows(t, p) { assert Uses(s, p.config.transport); }
    }
  }

  lemma GoKeepsFollowing(s: State, ok: bool, observed: bool)
    requires Wf(s) && AllFollow(s) && Enabled(s, Go(ok, observed))
    ensures AllFollow(GoRun(s, ok, observed))
  {
    var t := GoRun(s, ok, observed);
    if s.run.value.pc == Apply {
      assert t.tmpl == Some(Template(s, s.run.value));
    } else {
      assert t.tmpl == s.tmpl && t.pods == s.pods && t.status == s.status && t.kind == s.kind;
    }
  }

  lemma InputKeepsFollowing(s: State, st: Step)
    requires AllFollow(s) && Enabled(s, st) && !st.Go? && st != End(true)
    ensures AllFollow(Next(s, st))
  {
  }

  lemma {:induction false} RunKeepsFollowing(s: State, steps: seq<Step>)
    requires Wf(s) && Steady(s) && AllFollow(s) && IsRun(s, steps) && Along(s, steps) && Apart(After(s, steps))
    ensures AllFollow(After(s, steps))
    decreases |steps|
  {
    if steps != [] {
      RunNamesGrow(s, steps);
      RunNamesGrow(Next(s, steps[0]), steps[1..]);
      StepKeepsWf(s, steps[0]);
      StepKeepsSteady(s, steps[0]);
      if steps[0] == End(true) { PatchKeepsFollowing(s); }
      else if steps[0].Go? { GoKeepsFollowing(s, steps[0].ok, steps[0].observed); }
      else { InputKeepsFollowing(s, steps[0]); }
      RunKeepsFollowing(Next(s, steps[0]), steps[1..]);
    }
  }

  /** The init containers of every pod name a secret with the finalizer. */
  ghost predicate InitSecured(s: State) { forall p :: p in s.pods && p.named != "" ==> p.named in s.held }

  /** The inspector's init containers name the secret the status tracked when
      the template was computed, that is the old one.  So whenever a run with
      one rotation at a time finalizes a rotation, the init containers are
      left with a held secret exactly when there is no pod at all. */
  lemma InspectorReleasesWhatInitNames(s0: State, steps: seq<Step>, ok: bool, observed: bool)
    requires Init(s0) && s0.kind == Inspector && IsRun(s0, steps) && Along(s0, steps)
    requires var s := After(s0, steps);
             && Apart(s) && Enabled(s, Go(ok, observed)) && s.run.value.pc == FinTransport && s.run.value.ready
             && s.status.transport != "" && s.status.transport != s.run.value.transport
    ensures InitSecured(Next(After(s0, steps), Go(ok, observed))) <==> After(s0, steps).pods == {}
  {
    RunKeepsWf(s0, steps);
    RunKeepsSteady(s0, steps);
    RunKeepsFollowing(s0, steps);
    var s := After(s0, steps);
    KindStays(s0, steps);
    forall p | p in s.pods ensures p.named == s.status.transport {}
    if p :| p in s.pods { assert p.named !in Next(s, Go(ok, observed)).held; }
  }

  lemma {:induction false} KindStays(s: State, steps: seq<Step>)
    requires IsRun(s, steps)
    ensures After(s, steps).kind == s.kind
    decreases |steps|
  {
    if steps != [] { KindStays(Next(s, steps[0]), steps[1..]); }
  }

  ghost predicate Reaches(s: State, t: State) {
    exists steps :: IsRun(s, steps) && Along(s, steps) && After(s, steps) == t
  }

  lemma {:induction false} RunsCompose(s: State, a: seq<Step>, st: Step)
    requires IsRun(s, a) && Along(s, a) && Enabled(After(s, a), st) && OneAtATime(After(s, a), st)
    ensures IsRun(s, a + [st]) && Along(s, a + [st]) && After(s, a + [st]) == Next(After(s, a), st)
    decreases |a|
  {
    if a == [] {
      assert a + [st] == [st] && [st][1..] == [];
      assert IsRun(Next(s, st), []) && Along(Next(s, st), []);
    } else {
      assert (a + [st])[0] == a[0] && (a + [st])[1..] == a[1..] + [st];
      RunsCompose(Next(s, a[0]), a[1..], st);
    }
  }

  lemma ReachesNext(s: State, t: State, st: Step)
    requires Reaches(s, t) && Enabled(t, st) && OneAtATime(t, st)
    ensures Reaches(s, Next(t, st))
  {
    var steps :| IsRun(s, steps) && Along(s, steps) && After(s, steps) == t;
    RunsCompose(s, steps, st);
  }

  /** A reconcile that stands before step pc after it read the live names. */
  function Standing(s: State, pc: Pc, ready: bool): State {
    var c := if Idx(pc) > 4 then Config(s.live, s.liveNotif, s.other) else s.cfg;
    s.(run := Some(Run(pc, false, s.status.(notif := s.liveNotif), s.live, s.liveNotif, c, ready)))
  }

  function Held(s: State): set<Name> { HoldNotifOf(Manage(s.held, s.live), s.liveNotif) }

  function HoldNotifOf(held: set<Name>, n: Name): set<Name> { if n == "" then held else Manage(held, n) }

  /** A rotation is in flight and the status has settled on its previous secret and on the notifications one. */
  ghost predicate InFlight(s: State) {
    s.run.None? && s.live != "" && s.status.transport != "" && s.status.transport != s.live
  }

  lemma Prepares(s0: State, s: State)
    requires Reaches(s0, s) && InFlight(s)
    ensures Reaches(s0, Standing(s.(held := Held(s)), Render, false))
  {
    var r0 := Run(ReadTransport, false, s.status, "", "", s.cfg, false);
    ReachesNext(s0, s, Begin);
    ReachesNext(s0, s.(run := Some(r0)), Go(true, true));
    ReachesNext(s0, s.(run := Some(r0.(pc := HoldTransport, transport := s.live))), Go(true, true));
    PreparesNotif(s0, s.(held := Manage(s.held, s.live)), r0.(pc := ReadNotif, transport := s.live));
  }

  lemma PreparesNotif(s0: State, s: State, r: Run)
    requires r.pc == ReadNotif && !r.stopped && Reaches(s0, s.(run := Some(r)))
    ensures Reaches(s0, s.(held := HoldNotifOf(s.held, s.liveNotif),
                           run := Some(r.(pc := Render, notif := s.liveNotif, mem := r.mem.(notif := s.liveNotif)))))
  {
    ReachesNext(s0, s.(run := Some(r)), Go(true, true));
    ReachesNext(s0, s.(run := Some(r.(pc := HoldNotif, notif := s.liveNotif, mem := r.mem.(notif := s.liveNotif)))),
                Go(true, true));
  }

  /** The first reconcile after the rotation sees the config change and stops. */
  lemma SeesChange(s0: State, s: State)
    requires Reaches(s0, s) && InFlight(s) && s.status.hash != Some(Config(s.live, s.liveNotif, s.other))
    ensures var c := Config(s.live, s.liveNotif, s.other);
            Reaches(s0, s.(held := Held(s), cfg := c, status := Status(s.status.transport, s.liveNotif, Some(c))))
  {
    Prepares(s0, s);
    var a := Standing(s.(held := Held(s)), Render, false);
    ReachesNext(s0, a, Go(true, true));
    ReachesNext(s0, Next(a, Go(true, true)), End(true));
  }

  /** The next ones apply the template. */
  lemma Applies(s0: State, s: State)
    requires Reaches(s0, s) && InFlight(s) && s.kind == Inspector
             && s.status.hash == Some(Config(s.live, s.liveNotif, s.other))
    ensures var c := Config(s.live, s.liveNotif, s.other);
            Reaches(s0, Standing(s.(held := Held(s), cfg := c, tmpl := Some(Pod(c, s.status.transport))), Observe,
                                 false))
  {
    Prepares(s0, s);
    var c := Config(s.live, s.liveNotif, s.other);
    ReachesNext(s0, Standing(s.(held := Held(s)), Render, false), Go(true, true));
    ReachesNext(s0, Standing(s.(held := Held(s), cfg := c), Apply, false), Go(true, true));
  }

  /** The pods roll out, the reconcile finds them ready and releases the old secret. */
  lemma Releases(s0: State, s: State)
    requires Reaches(s0, s) && InFlight(s) && s.kind == Inspector
             && s.status.hash == Some(Config(s.live, s.liveNotif, s.other))
    ensures exists t :: Reaches(s0, t) && !InitSecured(t)
  {
    Applies(s0, s);
    var c := Config(s.live, s.liveNotif, s.other);
    var pod := Pod(c, s.status.transport);
    var w := s.(held := Held(s), cfg := c, tmpl := Some(pod));
    ReachesNext(s0, Standing(w, Observe, false), Rollout({pod}));
    var u := w.(pods := {pod});
    ReachesNext(s0, Standing(u, Observe, false), Go(true, true));
    ReachesNext(s0, Standing(u, FinTransport, true), Go(true, true));
    var t := Next(Standing(u, FinTransport, true), Go(true, true));
    assert pod in t.pods && pod.named !in t.held;
  }

  /** From any inspector state whose status tracks the live secret, a rotation
      to any other name can go, by two reconciles and a rollout, to a state in
      which a pod's init container names a secret without the finalizer. */
  lemma InitSecretCanBeLost(s: State, newer: Name)
    requires s.kind == Inspector && s.run.None? && s.status.transport == s.live != "" && newer !in {"", s.live}
    requires s.status.hash != Some(Config(newer, s.liveNotif, s.other))
    ensures exists t :: Reaches(s, t) && !InitSecured(t)
  {
    assert IsRun(s, []) && Along(s, []) && After(s, []) == s;
    ReachesNext(s, s, RotateTransport(newer));
    var rotated := Next(s, RotateTransport(newer));
    SeesChange(s, rotated);
    var c := Config(newer, s.liveNotif, s.other);
    Releases(s, rotated.(held := Held(rotated), cfg := c, status := Status(s.live, s.liveNotif, Some(c))));
  }
}
