/** What one reconcile of the parent does to the secrets in use: exactly when
    it leaves all of them with the finalizer, read off the state before it. */
module PassSafety {
  import opened Secrets
  import opened Wrappers
  import opened Rotation
  import opened RotationRefinement
  import opened RotationSafety
  import opened Passes

  /** Secret n is named by a template, a pod or a running reconcile of a child:
      a push of new specs does not change that. */
  ghost predicate Lingers(k: Kind, s: State, n: Name) {
    n != "" && exists c :: c in s.children && LingersIn(k, s.children[c], n)
  }

  ghost predicate LingersIn(k: Kind, c: Child, n: Name) {
    || (c.tmpl.Some? && n in NamedBy(k, c.tmpl.value))
    || (exists p :: p in c.pods && n in NamedBy(k, p))
    || (c.run.Some? && Sel(k, c.run.value.spec) == n)
    || (c.run.Some? && c.run.value.snap.Some? && n in NamedBy(k, c.run.value.snap.value))
  }

  /** Whether the pass finds every service ready. */
  predicate ReadyInPass(s: State, ok: bool) {
    AllReady(PushAll(s.children, Ids(s.env), Wanted(s.env)), Ids(s.env), Wanted(s.env)) && ok
  }

  /** That, too, can be told before: every service is there, was pushed these
      very inputs, has been observed and has reported them. */
  lemma ReadyBeforePass(s: State, ok: bool)
    requires forall c :: c in s.children ==> s.children[c].obs <= s.children[c].gen
    ensures ReadyInPass(s, ok) <==>
              ok && forall c :: c in Ids(s.env) ==>
                c in s.children && s.children[c].spec == Wanted(s.env) && ChildReady(s.children[c], Wanted(s.env))
  {
    PushedKnown(s.children, Ids(s.env), Wanted(s.env));
  }

  // ---------------------------------------------------------------------
  // Which finalizers a pass keeps

  /** No secret of the other kind that shares the finalizer. */
  ghost predicate OfKind(k: Kind, s: State, n: Name) {
    && (k == Transport ==> n !in s.everNotif)
    && (k == Notification ==> n !in s.everTransport)
  }

  lemma TransportKeptIff(s: State, ok: bool, n: Name)
    requires NamesApart(s) && n != "" && OfKind(Transport, s, n)
    ensures n in FullPass(s, ok).held <==>
              n == s.env.transport || (n in s.held && n == s.status.transport && !ReadyInPass(s, ok))
  {
  }

  lemma NotificationKeptIff(s: State, ok: bool, n: Name)
    requires NamesApart(s) && n != "" && OfKind(Notification, s, n)
    ensures n in FullPass(s, ok).held <==>
              n == s.env.notif || (n in s.held && n == s.status.notif && !ReadyInPass(s, ok))
  {
  }

  lemma CredentialKeptIff(s: State, ok: bool, n: Name)
    requires n != ""
    ensures n in FullPass(s, ok).heldAC <==>
              n == s.env.ac || (n in s.heldAC && n == s.status.ac && !ReadyInPass(s, ok))
  {
  }

  /** A pass that runs to its end leaves the finalizer on exactly the secret
      asked for and, unless everything is ready, on the tracked one. */
  lemma KeptIff(k: Kind, s: State, ok: bool, n: Name)
    requires (!Credential(k) ==> NamesApart(s)) && n != "" && OfKind(k, s, n)
    ensures n in Holders(k, FullPass(s, ok)) <==>
              n == Target(k, s) || (n in Holders(k, s) && n == TrackedName(k, s.status) && !ReadyInPass(s, ok))
  {
    match k
    case Transport => TransportKeptIff(s, ok, n);
    case Notification => NotificationKeptIff(s, ok, n);
    case _ => CredentialKeptIff(s, ok, n);
  }

  // ---------------------------------------------------------------------
  // Which secrets are in use after it

  lemma PushedUses(k: Kind, s: State, c: Id, n: Name)
    ensures UsedBy(k, PushedChild(s.children, c, Wanted(s.env)), n)
            <==> n == Target(k, s) || (c in s.children && LingersIn(k, s.children[c], n))
  {
  }

  lemma FullPassChildren(s: State, ok: bool)
    requires forall c :: c in s.children ==> c in Ids(s.env)
    ensures var t := FullPass(s, ok);
            && (forall c :: c in t.children <==> c in Ids(s.env))
            && (forall c :: c in Ids(s.env) ==> t.children[c] == PushedChild(s.children, c, Wanted(s.env)))
            && t.cfg == WantedConfig(s.env)
  {
    PushedKnown(s.children, Ids(s.env), Wanted(s.env));
  }

  lemma UsedAfterFullPass(k: Kind, s: State, ok: bool, n: Name)
    requires forall c :: c in s.children ==> c in Ids(s.env)
    ensures InUse(k, FullPass(s, ok), n) <==> n != "" && (n == Target(k, s) || Lingers(k, s, n))
  {
    var t := FullPass(s, ok);
    FullPassChildren(s, ok);
    assert API in Ids(s.env);
    PushedUses(k, s, API, n);
    if c :| c in t.children && UsedBy(k, t.children[c], n) { PushedUses(k, s, c, n); }
    if c :| c in s.children && LingersIn(k, s.children[c], n) {
      PushedUses(k, s, c, n);
      assert c in t.children && UsedBy(k, t.children[c], n);
    }
  }

  lemma UsedAfterEarlyPass(k: Kind, s: State, n: Name)
    ensures InUse(k, EarlyPass(s), n) ==> InUse(k, s, n) || (k != SpecCredential && n == Target(k, s) != "")
    ensures k != SpecCredential && Target(k, s) != "" ==> InUse(k, EarlyPass(s), Target(k, s))
  {
  }

  // ---------------------------------------------------------------------
  // The exact conditions

  /** Every secret that lingers stays held: it is the one asked for, or it is
      still tracked and some service is not ready. */
  ghost predicate LingerersKept(k: Kind, s: State, ok: bool) {
    forall n :: Lingers(k, s, n) ==> n == Target(k, s) || (n == TrackedName(k, s.status) && !ReadyInPass(s, ok))
  }

  /** What lingers is of its own kind. */
  ghost predicate LingerersOfKind(k: Kind, s: State) {
    forall n :: Lingers(k, s, n) ==> OfKind(k, s, n)
  }

  lemma LingererIsUsed(k: Kind, s: State, n: Name)
    requires Lingers(k, s, n)
    ensures InUse(k, s, n)
  {
    var c :| c in s.children && LingersIn(k, s.children[c], n);
    assert UsedBy(k, s.children[c], n);
  }

  lemma KeptLingerersAreSecured(k: Kind, s: State, ok: bool)
    requires Wf(s) && (!Credential(k) ==> NamesApart(s)) && LingerersOfKind(k, s) && Secured(k, s)
    requires LingerersKept(k, s, ok)
    ensures Secured(k, FullPass(s, ok))
  {
    forall n | InUse(k, FullPass(s, ok), n) ensures n in Holders(k, FullPass(s, ok)) {
      UsedAfterFullPass(k, s, ok, n);
      if Lingers(k, s, n) { LingererIsUsed(k, s, n); }
      KeptIff(k, s, ok, n);
    }
  }

  lemma SecuredLingererIsKept(k: Kind, s: State, ok: bool, n: Name)
    requires Wf(s) && (!Credential(k) ==> NamesApart(s)) && OfKind(k, s, n)
    requires Secured(k, FullPass(s, ok)) && Lingers(k, s, n)
    ensures n == Target(k, s) || (n == TrackedName(k, s.status) && !ReadyInPass(s, ok))
  {
    var t := FullPass(s, ok);
    UsedAfterFullPass(k, s, ok, n);
    assert InUse(k, t, n) && n in Holders(k, t);
    KeptIff(k, s, ok, n);
  }

  lemma SecuredLingerersAreKept(k: Kind, s: State, ok: bool)
    requires Wf(s) && (!Credential(k) ==> NamesApart(s)) && LingerersOfKind(k, s)
    requires Secured(k, FullPass(s, ok))
    ensures LingerersKept(k, s, ok)
  {
    forall n | Lingers(k, s, n)
      ensures n == Target(k, s) || (n == TrackedName(k, s.status) && !ReadyInPass(s, ok))
    {
      SecuredLingererIsKept(k, s, ok, n);
    }
  }

  /** A reconcile that runs to its end keeps every secret in use held if and
      only if what lingers in the workloads is the secret asked for, or the
      tracked one while some service is not ready.  A third secret, as in a
      rotation A -> B -> C, is lost, and so is the tracked one when a stale
      report makes every service count as ready. */
  lemma FullPassIsSafeIff(k: Kind, s: State, ok: bool)
    requires Wf(s) && (!Credential(k) ==> NamesApart(s)) && LingerersOfKind(k, s) && Secured(k, s)
    ensures Secured(k, FullPass(s, ok)) <==> LingerersKept(k, s, ok)
  {
    if LingerersKept(k, s, ok) { KeptLingerersAreSecured(k, s, ok); }
    if Secured(k, FullPass(s, ok)) { SecuredLingerersAreKept(k, s, ok); }
  }

  lemma EarlyPassHolds(k: Kind, s: State, n: Name)
    ensures n in Holders(k, s) ==> n in Holders(k, EarlyPass(s))
    ensures n == Target(k, s) != "" && k != SpecCredential
            && (k == AppCredential && s.variant == AsWritten ==> n in s.heldAC)
            ==> n in Holders(k, EarlyPass(s))
  {
  }

  /** A reconcile that returns early on the changed config keeps every secret
      in use held, with one exception: the code as written renders the
      application credential before it holds it, so that one is safe if and
      only if there is none or an earlier reconcile has held it. */
  lemma EarlyPassIsSafeIff(k: Kind, s: State)
    requires (!Credential(k) ==> NamesApart(s)) && Secured(k, s)
    ensures Secured(k, EarlyPass(s)) <==>
              (k == AppCredential && s.variant == AsWritten ==> s.env.ac == "" || s.env.ac in s.heldAC)
  {
    var t := EarlyPass(s);
    if k == AppCredential && s.variant == AsWritten && s.env.ac != "" && s.env.ac !in s.heldAC {
      UsedAfterEarlyPass(k, s, s.env.ac);
    } else {
      forall n | InUse(k, t, n) ensures n in Holders(k, t) {
        UsedAfterEarlyPass(k, s, n);
        EarlyPassHolds(k, s, n);
      }
    }
  }

  /** The two together: the exact condition for a whole reconcile of the parent
      to keep every secret in use held. */
  lemma PassIsSafeIff(k: Kind, s: State, ok: bool)
    requires Wf(s) && (!Credential(k) ==> NamesApart(s)) && LingerersOfKind(k, s) && Secured(k, s)
    ensures Secured(k, ParentPass(s, ok)) <==>
              s.env.transport == ""
              || (if s.status.hash == Some(WantedConfig(s.env)) then LingerersKept(k, s, ok)
                  else k == AppCredential && s.variant == AsWritten ==> s.env.ac == "" || s.env.ac in s.heldAC)
  {
    if s.env.transport != "" {
      if s.status.hash == Some(WantedConfig(s.env)) { FullPassIsSafeIff(k, s, ok); } else { EarlyPassIsSafeIff(k, s); }
    }
  }

  // ---------------------------------------------------------------------
  // What lingers is of its own kind in every reachable state

  function Ever(k: Kind, s: State): set<Name> { if k == Transport then s.everTransport else s.everNotif }

  ghost predicate UsesOwn(k: Kind, s: State) {
    !Credential(k) ==> forall n :: InUse(k, s, n) ==> n in Ever(k, s)
  }

  /** A step of a child brings in nothing that its spec or the parent's config does not name. */
  lemma ChildStepUses(k: Kind, s: State, st: Step, n: Name)
    requires IsChildStep(st) && Enabled(s, st) && WfChild(s.children[st.c])
    requires UsedBy(k, ChildAfter(s, s.children[st.c], st), n)
    ensures UsedBy(k, s.children[st.c], n) || (k != SpecCredential && Sel(k, s.cfg.inputs) == n)
  {
    var child := s.children[st.c];
    if st.Rollout? {
      if p :| p in st.pods && n in NamedBy(k, p) { assert p in child.pods || p == child.tmpl.value; }
    }
  }

  lemma ChildStepInUse(k: Kind, s: State, st: Step, n: Name)
    requires Wf(s) && IsChildStep(st) && Enabled(s, st) && InUse(k, Next(s, st), n)
    ensures InUse(k, s, n)
  {
    var t := Next(s, st);
    if !(k != SpecCredential && Sel(k, s.cfg.inputs) == n) {
      var c :| c in t.children && UsedBy(k, t.children[c], n);
      if c == st.c { ChildStepUses(k, s, st, n); }
      assert UsedBy(k, s.children[c], n);
    }
  }

  lemma ChildKeepsOwn(k: Kind, s: State, st: Step)
    requires Wf(s) && UsesOwn(k, s) && IsChildStep(st) && Enabled(s, st)
    ensures UsesOwn(k, Next(s, st))
  {
    forall n | InUse(k, Next(s, st), n) ensures InUse(k, s, n) { ChildStepInUse(k, s, st, n); }
  }

  lemma PushInUse(k: Kind, s: State, r: Run, ok: bool, n: Name)
    requires s.run == Some(r) && WfLocals(r) && r.pc == Push && InUse(k, Pushes(s, r, ok), n)
    ensures InUse(k, s, n) || n == Sel(k, CurrentInputs(r))
  {
    var t := Pushes(s, r, ok);
    if n != Sel(k, CurrentInputs(r)) && !(k != SpecCredential && Sel(k, s.cfg.inputs) == n) {
      var c :| c in t.children && UsedBy(k, t.children[c], n);
      assert c in s.children && UsedBy(k, s.children[c], n);
    }
  }

  lemma PushKeepsOwn(k: Kind, s: State, ok: bool)
    requires Wf(s) && NamesApart(s) && UsesOwn(k, s) && Enabled(s, Go(ok)) && s.run.value.pc == Push
    ensures UsesOwn(k, Pushes(s, s.run.value, ok))
  {
    var r := s.run.value;
    forall n | InUse(k, Pushes(s, r, ok), n) ensures InUse(k, s, n) || n == Sel(k, CurrentInputs(r)) {
      PushInUse(k, s, r, ok, n);
    }
  }

  lemma RenderInUse(k: Kind, s: State, r: Run, n: Name)
    requires s.run == Some(r) && WfLocals(r) && r.pc == Render && InUse(k, Renders(s, r), n) && !Credential(k)
    ensures InUse(k, s, n) || n == (if k == Transport then r.transport.value else r.notif.value)
  {
  }

  lemma RenderKeepsOwn(k: Kind, s: State, ok: bool)
    requires Wf(s) && NamesApart(s) && UsesOwn(k, s) && Enabled(s, Go(ok)) && s.run.value.pc == Render
    ensures UsesOwn(k, Renders(s, s.run.value))
  {
    var r, t := s.run.value, Renders(s, s.run.value);
    if !Credential(k) {
      forall n | InUse(k, t, n) ensures n in Ever(k, t) {
        RenderInUse(k, s, r, n);
        assert RunApart(s.everTransport, s.everNotif, r) && Ever(k, t) == Ever(k, s);
      }
    }
  }

  /** The other steps of the parent change neither children nor config. */
  lemma GoKeepsWorkloads(s: State, ok: bool)
    requires Enabled(s, Go(ok)) && s.run.value.pc !in {Push, Render}
    ensures GoParent(s, ok).children == s.children && GoParent(s, ok).cfg == s.cfg
  {
  }

  lemma SameWorkloadsUses(k: Kind, s: State, t: State)
    requires t.children == s.children && t.cfg == s.cfg && UsesOwn(k, s)
    requires s.everTransport <= t.everTransport && s.everNotif <= t.everNotif
    ensures UsesOwn(k, t)
  {
    assert forall n :: InUse(k, t, n) ==> InUse(k, s, n);
  }

  lemma StepKeepsOwn(k: Kind, s: State, st: Step)
    requires Wf(s) && NamesApart(s) && UsesOwn(k, s) && Enabled(s, st)
    ensures UsesOwn(k, Next(s, st))
  {
    if IsChildStep(st) { ChildKeepsOwn(k, s, st); }
    else if !st.Go? { SameWorkloadsUses(k, s, Next(s, st)); }
    else if s.run.value.pc == Push { PushKeepsOwn(k, s, st.ok); }
    else if s.run.value.pc == Render { RenderKeepsOwn(k, s, st.ok); }
    else {
      GoKeepsRest(s, st.ok);
      GoKeepsWorkloads(s, st.ok);
      SameWorkloadsUses(k, s, GoParent(s, st.ok));
    }
  }

  lemma {:induction false} RunKeepsOwn(k: Kind, s: State, steps: seq<Step>)
    requires Wf(s) && NamesApart(s) && UsesOwn(k, s) && IsRun(s, steps) && AllApart(s, steps)
    ensures Wf(After(s, steps)) && NamesApart(After(s, steps)) && UsesOwn(k, After(s, steps))
    decreases |steps|
  {
    if steps != [] {
      StepKeepsWf(s, steps[0]);
      StepKeepsNamesApart(s, steps[0]);
      StepKeepsOwn(k, s, steps[0]);
      RunKeepsOwn(k, Next(s, steps[0]), steps[1..]);
    }
  }

  /** The exact condition in every state that any history leads to, rotations
      at any pace included: if the secrets of a kind are held there, the next
      reconcile of the parent keeps them so if and only if, where it returns
      early, it does not render a credential that nobody holds, and where it
      runs to its end, only the secret asked for lingers, or the tracked one
      while some service is not ready. */
  lemma NextPassIsSafeIff(k: Kind, s: State, steps: seq<Step>, ok: bool)
    requires Init(s) && IsRun(s, steps) && AllApart(s, steps) && Secured(k, After(s, steps))
    ensures var u := After(s, steps);
            Secured(k, ParentPass(u, ok)) <==>
              u.env.transport == ""
              || (if u.status.hash == Some(WantedConfig(u.env)) then LingerersKept(k, u, ok)
                  else k == AppCredential && u.variant == AsWritten ==> u.env.ac == "" || u.env.ac in u.heldAC)
  {
    RunKeepsOwn(k, s, steps);
    var u := After(s, steps);
    forall n | Lingers(k, u, n) ensures OfKind(k, u, n) { LingererIsUsed(k, u, n); }
    PassIsSafeIff(k, u, ok);
  }
}
