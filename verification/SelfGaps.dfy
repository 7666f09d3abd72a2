/** Where the rotation code of the agent and the inspector, as it is written,
    lets a notifications secret go while pods may use it. */
module SelfGaps {
  import opened Secrets
  import opened Wrappers
  import opened SelfRotation
  import opened SelfController
  import opened SelfOutcome

  /** From any state, whatever the pods use: two reconciles after the
      notifications secret changed, the first of which returns early on the
      changed input hash, keep the finalizer of the tracked one if and only if
      no other one is asked for, or the inspector returns before the release. */
  lemma TwoReconcilesForget(s: State, first: nat, second: nat, o: Outcome, o': Outcome)
    requires s.run.None? && s.live != "" && s.status.hash != Some(Rendered(s))
    requires s.status.notif in s.held && s.status.notif !in {"", s.live, s.status.transport}
    requires first >= 5 && second >= 10 && o.found && o'.found
    ensures var t := Reconciled(Reconciled(s, first, o, true), second, o', true);
            && (s.status.notif in t.held <==> s.status.notif == s.liveNotif || Waits(s, o'))
            && t.status.notif == s.liveNotif && t.pods == s.pods
  {
    ChangeEndsReconcile(s, first, o);
    var u := EarlyPass(s);
    if Waits(u, o') {
      WaitingEndsReconcile(u, second, o');
    } else {
      Finishes(u, second - 10, o');
    }
  }

  // ---------------------------------------------------------------------
  // After a failing lookup

  /** What the calls before the prune leave alone. */
  ghost predicate Spares(t: State, n: Name) {
    && t.run.Some? && n in t.held && n != t.status.notif
    && n != t.live && n != t.run.value.transport && n != t.run.value.mem.transport
  }

  lemma StepSpares(t: State, o: Outcome, n: Name)
    requires Spares(t, n) && Moving(t) && t.run.value.pc != PruneStrays
    ensures var u := Next(t, StepOf(t, o)); Spares(u, n) && Idx(u.run.value.pc) <= Idx(t.run.value.pc) + 1
  {
  }

  lemma {:induction false} KeptBeforePrune(t: State, k: nat, o: Outcome, n: Name)
    requires Spares(t, n) && Idx(t.run.value.pc) + k <= 9
    ensures Spares(Iter(t, k, o), n)
    decreases k
  {
    if k > 0 && Moving(t) {
      StepSpares(t, o, n);
      KeptBeforePrune(Next(t, StepOf(t, o)), k - 1, o, n);
    }
  }

  /** The reconcile gets to its prune: its config is the one recorded before,
      and the inspector does not return because of its pods. */
  predicate GetsToPrune(s: State, calls: nat, o: Outcome) {
    var config := Config(s.live, s.liveNotif, s.other);
    && calls >= 10 && o.found && s.status.hash == Some(config)
    && (s.kind == Inspector && o.observed ==> o.ok && forall p :: p in s.pods ==> p.config == config)
  }

  /** An untracked secret loses its finalizer when a reconcile gets to its prune, not before. */
  lemma UntrackedIsPruned(s: State, calls: nat, o: Outcome, n: Name)
    requires s.run.None? && s.live != "" && s.status.notif == ""
    requires n in s.held && n !in {"", s.live, s.status.transport}
    ensures n in Reconciled(s, calls, o, true).held <==> n == s.liveNotif || !GetsToPrune(s, calls, o)
  {
    if calls < 10 { KeptBeforePrune(Next(s, Begin), calls, o, n); }
    else if !o.found { LookupFails(s, calls, o, true); }
    else if s.status.hash != Some(Rendered(s)) { ChangeEndsReconcile(s, calls, o); }
    else if Waits(s, o) { WaitingEndsReconcile(s, calls, o); }
    else { Finishes(s, calls - 10, o); }
  }

  /** After a single failing lookup the tracked notifications secret is tracked
      no more, with the pods still on it; it keeps its finalizer until the next
      reconcile that gets to its prune, which takes it off, ready or not,
      unless that very secret is asked for again. */
  lemma FailedLookupForgets(s: State, first: nat, second: nat, o: Outcome, o': Outcome)
    requires s.run.None? && s.live != ""
    requires s.status.notif in s.held && s.status.notif !in {"", s.live, s.status.transport}
    requires first >= 3 && !o.found
    ensures var u := Reconciled(s, first, o, true); var t := Reconciled(u, second, o', true);
            && u.status.notif == "" && s.status.notif in u.held && t.pods == u.pods == s.pods
            && (s.status.notif in t.held <==> s.status.notif == s.liveNotif || !GetsToPrune(s, second, o'))
  {
    LookupFails(s, first, o, true);
    var u := Reconciled(s, first, o, true);
    UntrackedIsPruned(u, second, o', s.status.notif);
    PodsStay(u, second, o');
  }

  lemma PodsStay(s: State, calls: nat, o: Outcome)
    requires s.run.None?
    ensures Reconciled(s, calls, o, true).pods == s.pods
  {
    IterKeepsPods(Next(s, Begin), calls, o);
  }

  lemma {:induction false} IterKeepsPods(s: State, k: nat, o: Outcome)
    requires s.run.Some?
    ensures Iter(s, k, o).pods == s.pods && Iter(s, k, o).run.Some?
    decreases k
  {
    if k > 0 && Moving(s) { IterKeepsPods(Next(s, StepOf(s, o)), k - 1, o); }
  }
}
