/** What one reconcile of the agent or the inspector leaves behind, told by the
    names it was given and the calls that succeeded. */
module SelfOutcome {
  import opened Secrets
  import opened Wrappers
  import opened SelfRotation
  import opened SelfController

  function Rendered(s: State): Config { Config(s.live, s.liveNotif, s.other) }

  function HeldBoth(s: State): set<Name> {
    if s.liveNotif == "" then Manage(s.held, s.live) else Manage(Manage(s.held, s.live), s.liveNotif)
  }

  /** A reconcile that stands before step pc, with the live names read. */
  function At(s: State, pc: Pc, ready: bool): State {
    var mem := Status(Tracked(s.status.transport, s.live), s.liveNotif, s.status.hash);
    s.(run := Some(Run(pc, false, mem, s.live, s.liveNotif, if Idx(pc) > 4 then Rendered(s) else s.cfg, ready)))
  }

  lemma Prepares(s: State, k: nat, o: Outcome)
    requires s.run.None? && s.live != "" && o.found
    ensures Iter(Next(s, Begin), k + 4, o) == Iter(At(s.(held := HeldBoth(s)), Render, false), k, o)
  {
    var a := Next(s, Begin);
    IterOnce(a, k + 4, o);
    var b := GoRun(a, o.ok, o.observed);
    IterOnce(b, k + 3, o);
    var c := GoRun(b, o.ok, o.observed);
    IterOnce(c, k + 2, o);
    var d := GoRun(c, o.ok, o.observed);
    IterOnce(d, k + 1, o);
  }

  /** The reconcile that finds its input hash changed. */
  function EarlyPass(s: State): State {
    s.(held := HeldBoth(s), cfg := Rendered(s),
       status := Status(Tracked(s.status.transport, s.live), s.liveNotif, Some(Rendered(s))))
  }

  lemma ChangeEndsReconcile(s: State, calls: nat, o: Outcome)
    requires s.run.None? && s.live != "" && o.found && calls >= 5 && s.status.hash != Some(Rendered(s))
    ensures Reconciled(s, calls, o, true) == EarlyPass(s)
  {
    Prepares(s, calls - 4, o);
    IterOnce(At(s.(held := HeldBoth(s)), Render, false), calls - 4, o);
  }

  /** The cluster once the template is applied. */
  function Applied(s: State): State {
    var named := if s.kind == Inspector then Tracked(s.status.transport, s.live) else "";
    s.(held := HeldBoth(s), cfg := Rendered(s), tmpl := Some(Pod(Rendered(s), named)))
  }

  lemma Applies(s: State, k: nat, o: Outcome)
    requires s.run.None? && s.live != "" && o.found && s.status.hash == Some(Rendered(s))
    ensures Iter(Next(s, Begin), k + 6, o) == Iter(At(Applied(s), Observe, false), k, o)
  {
    Prepares(s, k + 2, o);
    var a := At(s.(held := HeldBoth(s)), Render, false);
    IterOnce(a, k + 2, o);
    IterOnce(GoRun(a, o.ok, o.observed), k + 1, o);
  }

  predicate FindsReady(s: State, o: Outcome) { o.observed && o.ok && AllFor(s.pods, Rendered(s)) }

  /** The inspector returns when its workload is not ready yet. */
  predicate Waits(s: State, o: Outcome) { s.kind == Inspector && o.observed && !FindsReady(s, o) }

  lemma WaitingEndsReconcile(s: State, calls: nat, o: Outcome)
    requires s.run.None? && s.live != "" && o.found && calls >= 7 && s.status.hash == Some(Rendered(s)) && Waits(s, o)
    ensures var t := Reconciled(s, calls, o, true);
            t == Applied(s).(status := At(s, Observe, false).run.value.mem)
  {
    Applies(s, calls - 6, o);
    IterOnce(At(Applied(s), Observe, false), calls - 6, o);
  }

  /** What is held once the reconcile has run to its end. */
  function Finally(s: State, ready: bool): set<Name> {
    var t := FinalizeRotation(HeldBoth(s), Tracked(s.status.transport, s.live), s.live, ready);
    var n := FinalizeRotation(t.held, s.status.notif, s.liveNotif, ready);
    Prune(n.held, {t.tracked, s.live, n.tracked, s.liveNotif})
  }

  lemma Observes(s: State, k: nat, o: Outcome)
    requires !Waits(s, o)
    ensures Iter(At(Applied(s), Observe, false), k + 1, o) == Iter(At(Applied(s), FinTransport, FindsReady(s, o)), k, o)
  {
    IterOnce(At(Applied(s), Observe, false), k + 1, o);
  }

  /** It has come to its end, with these holders and this status to patch. */
  predicate Ended(s: State, ready: bool, t: State) {
    && t.run.Some? && t.(run := None) == Applied(s).(held := Finally(s, ready), run := None)
    && t.run.value.mem == Status(FinalizeRotation({}, Tracked(s.status.transport, s.live), s.live, ready).tracked,
                                 FinalizeRotation({}, s.status.notif, s.liveNotif, ready).tracked, s.status.hash)
  }

  lemma Finalizes(s: State, k: nat, o: Outcome, ready: bool)
    ensures Ended(s, ready, Iter(At(Applied(s), FinTransport, ready), k + 3, o))
  {
    var a := At(Applied(s), FinTransport, ready);
    IterOnce(a, k + 3, o);
    var b := GoRun(a, o.ok, o.observed);
    IterOnce(b, k + 2, o);
    IterOnce(GoRun(b, o.ok, o.observed), k + 1, o);
  }

  lemma Finishes(s: State, k: nat, o: Outcome)
    requires s.run.None? && s.live != "" && o.found && s.status.hash == Some(Rendered(s)) && !Waits(s, o)
    ensures Ended(s, FindsReady(s, o), Iter(Next(s, Begin), k + 10, o))
  {
    var begun, applied := Next(s, Begin), At(Applied(s), Observe, false);
    var observed := At(Applied(s), FinTransport, FindsReady(s, o));
    Applies(s, k + 4, o);
    assert Iter(begun, k + 10, o) == Iter(applied, k + 4, o);
    Observes(s, k + 3, o);
    assert Iter(applied, k + 4, o) == Iter(observed, k + 3, o);
    Finalizes(s, k, o, FindsReady(s, o));
  }

  // ---------------------------------------------------------------------
  // Told by the names alone

  /** A reconcile that stands before it looks the notifications secret up. */
  function AtLookup(s: State): State {
    var mem := s.status.(transport := Tracked(s.status.transport, s.live));
    s.(held := Manage(s.held, s.live), run := Some(Run(ReadNotif, false, mem, s.live, "", s.cfg, false)))
  }

  lemma HoldsTransport(s: State, k: nat, o: Outcome)
    requires s.run.None? && s.live != ""
    ensures Iter(Next(s, Begin), k + 2, o) == Iter(AtLookup(s), k, o)
  {
    var a := Next(s, Begin);
    IterOnce(a, k + 2, o);
    IterOnce(GoRun(a, o.ok, o.observed), k + 1, o);
  }

  lemma LooksUp(s: State, calls: nat, o: Outcome)
    requires s.run.None? && o.found && calls <= 2
    ensures var mem := s.status.(transport := Tracked(s.status.transport, s.live),
                                 notif := if calls >= 1 then s.liveNotif else s.status.notif);
            var t := Iter(AtLookup(s), calls, o);
            && t.run.Some? && t.run.value.mem == mem
            && t.(run := None) == s.(held := s.held + {s.live} + (if calls == 2 then Real({s.liveNotif}) else {}))
  {
    var a := AtLookup(s);
    if calls >= 1 {
      IterOnce(a, calls, o);
      if calls == 2 { IterOnce(GoRun(a, o.ok, o.observed), 1, o); }
    }
  }

  /** A reconcile that stops in its first calls: the transport secret is held,
      and on first setup tracked, by the second; the notifications secret is
      tracked by the third and held by the fourth. */
  lemma StopsEarly(s: State, calls: nat, o: Outcome, patched: bool)
    requires s.run.None? && s.live != "" && o.found && calls <= 4
    ensures var tracked := if calls >= 2 && s.status.transport == "" then s.live else s.status.transport;
            var notif := if calls >= 3 then s.liveNotif else s.status.notif;
            Reconciled(s, calls, o, patched)
            == s.(held := s.held + (if calls >= 2 then {s.live} else {})
                          + (if calls >= 4 then Real({s.liveNotif}) else {}),
                  status := if patched then s.status.(transport := tracked, notif := notif) else s.status)
  {
    if calls == 1 {
      IterOnce(Next(s, Begin), calls, o);
    } else if calls >= 2 {
      HoldsTransport(s, calls - 2, o);
      LooksUp(s, calls - 2, o);
    }
  }

  /** A failing lookup of the notifications TransportURL forgets the tracked
      secret, and nothing else has happened but that the transport secret is held. */
  lemma LookupFails(s: State, calls: nat, o: Outcome, patched: bool)
    requires s.run.None? && s.live != "" && !o.found && calls >= 3
    ensures var tracked := if s.status.transport == "" then s.live else s.status.transport;
            Reconciled(s, calls, o, patched)
            == s.(held := s.held + {s.live},
                  status := if patched then s.status.(transport := tracked, notif := "") else s.status)
  {
    HoldsTransport(s, calls - 2, o);
    IterFails(AtLookup(s), calls - 2, o);
  }

  /** A changed config is rendered and recorded, and that is all. */
  lemma ConfigChanges(s: State, calls: nat, o: Outcome)
    requires s.run.None? && s.live != "" && o.found && calls >= 5
    requires s.status.hash != Some(Config(s.live, s.liveNotif, s.other))
    ensures var config := Config(s.live, s.liveNotif, s.other);
            var tracked := if s.status.transport == "" then s.live else s.status.transport;
            Reconciled(s, calls, o, true)
            == s.(held := s.held + {s.live} + Real({s.liveNotif}), cfg := config,
                  status := Status(tracked, s.liveNotif, Some(config)))
  {
    ChangeEndsReconcile(s, calls, o);
    assert HeldBoth(s) == s.held + {s.live} + Real({s.liveNotif});
  }

  lemma Stops(s: State, calls: nat, o: Outcome, patched: bool, u: State)
    requires s.run.None? && Iter(Next(s, Begin), calls, o) == u && u.run.Some?
    ensures Reconciled(s, calls, o, patched) == Next(u, End(patched))
  {
  }

  function AtApply(s: State): State { At(s.(held := HeldBoth(s), cfg := Rendered(s)), Apply, false) }

  lemma Renders(s: State, k: nat, o: Outcome)
    requires s.run.None? && s.live != "" && o.found && s.status.hash == Some(Rendered(s))
    ensures Iter(Next(s, Begin), k + 5, o) == Iter(AtApply(s), k, o)
  {
    Prepares(s, k + 1, o);
    IterOnce(At(s.(held := HeldBoth(s)), Render, false), k + 1, o);
  }

  lemma PatchedConfig(s: State, patched: bool)
    requires s.run.None?
    ensures var status := Status(Tracked(s.status.transport, s.live), s.liveNotif, s.status.hash);
            Next(AtApply(s), End(patched))
            == s.(held := HeldBoth(s), cfg := Rendered(s), status := if patched then status else s.status)
  {
  }

  lemma ComesToApply(s: State, calls: nat, k: nat, o: Outcome)
    requires s.run.None? && s.live != "" && o.found && s.status.hash == Some(Rendered(s)) && calls == k + 5
    ensures Iter(Next(s, Begin), calls, o) == Iter(AtApply(s), k, o)
  {
    Renders(s, k, o);
  }

  lemma StopsAfterConfig(s: State, calls: nat, o: Outcome, patched: bool) returns (u: State)
    requires calls == 5 && s.run.None? && s.live != "" && o.found && s.status.hash == Some(Rendered(s))
    ensures Iter(Next(s, Begin), calls, o) == u && u.run.Some?
    ensures var status := Status(Tracked(s.status.transport, s.live), s.liveNotif, s.status.hash);
            Next(u, End(patched))
            == s.(held := HeldBoth(s), cfg := Rendered(s), status := if patched then status else s.status)
  {
    PatchedConfig(s, patched);
    ComesToApply(s, calls, 0, o);
    u := AtApply(s);
  }

  lemma PatchedTemplate(s: State, patched: bool)
    requires s.run.None?
    ensures var status := Status(Tracked(s.status.transport, s.live), s.liveNotif, s.status.hash);
            Next(At(Applied(s), Observe, false), End(patched))
            == Applied(s).(status := if patched then status else s.status)
  {
  }

  lemma ComesToObserve(s: State, calls: nat, k: nat, o: Outcome)
    requires s.run.None? && s.live != "" && o.found && s.status.hash == Some(Rendered(s)) && calls == k + 6
    ensures Iter(Next(s, Begin), calls, o) == Iter(At(Applied(s), Observe, false), k, o)
  {
    Applies(s, k, o);
  }

  lemma StopsAfterTemplate(s: State, calls: nat, o: Outcome, patched: bool) returns (u: State)
    requires calls == 6 && s.run.None? && s.live != "" && o.found && s.status.hash == Some(Rendered(s))
    ensures Iter(Next(s, Begin), calls, o) == u && u.run.Some?
    ensures var status := Status(Tracked(s.status.transport, s.live), s.liveNotif, s.status.hash);
            Next(u, End(patched)) == Applied(s).(status := if patched then status else s.status)
  {
    PatchedTemplate(s, patched);
    ComesToObserve(s, calls, 0, o);
    u := At(Applied(s), Observe, false);
  }

  /** A reconcile that stops right after its config, or after the template. */
  lemma StopsApplying(s: State, calls: nat, o: Outcome, patched: bool)
    requires s.run.None? && s.live != "" && o.found && 5 <= calls <= 6
    requires s.status.hash == Some(Config(s.live, s.liveNotif, s.other))
    ensures var config := Config(s.live, s.liveNotif, s.other);
            var tracked := if s.status.transport == "" then s.live else s.status.transport;
            Reconciled(s, calls, o, patched)
            == s.(held := s.held + {s.live} + Real({s.liveNotif}), cfg := config,
                  tmpl := if calls == 6 then Some(Pod(config, if s.kind == Inspector then tracked else "")) else s.tmpl,
                  status := if patched then Status(tracked, s.liveNotif, Some(config)) else s.status)
  {
    assert HeldBoth(s) == s.held + {s.live} + Real({s.liveNotif});
    if calls == 5 {
      var u := StopsAfterConfig(s, calls, o, patched);
      Stops(s, calls, o, patched, u);
    } else {
      var u := StopsAfterTemplate(s, calls, o, patched);
      Stops(s, calls, o, patched, u);
    }
  }

  function Released(held: set<Name>, previous: Name, current: Name, ready: bool): set<Name> {
    if ready && previous != "" && previous != current then held - {previous} else held
  }

  /** The holders, and the status to patch, when so many of the two rotations have been finalized. */
  function FinalizedHeld(s: State, ready: bool, done: nat): set<Name> {
    var tracked := if s.status.transport == "" then s.live else s.status.transport;
    var held := s.held + {s.live} + Real({s.liveNotif});
    var without := if done >= 1 then Released(held, tracked, s.live, ready) else held;
    if done >= 2 then Released(without, s.status.notif, s.liveNotif, ready) else without
  }

  function FinalizedStatus(s: State, ready: bool, done: nat): Status {
    var tracked := if s.status.transport == "" then s.live else s.status.transport;
    Status(if done >= 1 && ready then s.live else tracked,
           if done >= 2 && s.status.notif != "" && !ready then s.status.notif else s.liveNotif,
           Some(Config(s.live, s.liveNotif, s.other)))
  }

  lemma FinalizesSome(s: State, done: nat, o: Outcome, ready: bool) returns (u: State)
    requires done <= 2 && s.status.hash == Some(Rendered(s))
    ensures Iter(At(Applied(s), FinTransport, ready), done, o) == u && u.run.Some? && u.status == s.status
    ensures u.held == FinalizedHeld(s, ready, done) && u.run.value.mem == FinalizedStatus(s, ready, done)
  {
    assert HeldBoth(s) == s.held + {s.live} + Real({s.liveNotif});
    u := At(Applied(s), FinTransport, ready);
    if done >= 1 {
      IterOnce(u, done, o);
      u := GoRun(u, o.ok, o.observed);
      if done == 2 {
        IterOnce(u, 1, o);
        u := GoRun(u, o.ok, o.observed);
      }
    }
  }

  lemma ComesToFinalize(s: State, done: nat, calls: nat, o: Outcome, ready: bool) returns (u: State)
    requires s.run.None? && s.live != "" && o.found && done <= 2 && calls == done + 7
    requires s.status.hash == Some(Rendered(s)) && !Waits(s, o) && ready == FindsReady(s, o)
    ensures Iter(Next(s, Begin), calls, o) == u && u.run.Some? && u.status == s.status
    ensures u.held == FinalizedHeld(s, ready, done) && u.run.value.mem == FinalizedStatus(s, ready, done)
  {
    Applies(s, done + 1, o);
    Observes(s, done, o);
    u := FinalizesSome(s, done, o, ready);
  }

  /** A reconcile that stops while it releases the previous secrets: the
      transport secret comes first, then the notifications secret, each released
      and tracked no more exactly when every pod runs the config. */
  lemma StopsFinalizing(s: State, calls: nat, o: Outcome, patched: bool)
    requires s.run.None? && s.live != "" && o.found && 7 <= calls <= 9
    requires s.status.hash == Some(Config(s.live, s.liveNotif, s.other)) && !Waits(s, o)
    ensures var config := Config(s.live, s.liveNotif, s.other);
            var ready := o.observed && o.ok && forall p :: p in s.pods ==> p.config == config;
            var t := Reconciled(s, calls, o, patched);
            && t.held == FinalizedHeld(s, ready, calls - 7)
            && t.status == if patched then FinalizedStatus(s, ready, calls - 7) else s.status
  {
    var u := ComesToFinalize(s, calls - 7, calls, o, FindsReady(s, o));
    Stops(s, calls, o, patched, u);
  }

  /** An unchanged config is applied.  The inspector whose pods are not ready
      stops there, with nothing released; otherwise the secrets asked for are
      tracked if the pods are ready, else those tracked before, and of the
      others none keeps the finalizer. */
  lemma RunsToEnd(s: State, calls: nat, o: Outcome)
    requires s.run.None? && s.live != "" && o.found && calls >= (if Waits(s, o) then 7 else 10)
    requires s.status.hash == Some(Config(s.live, s.liveNotif, s.other))
    ensures var config := Config(s.live, s.liveNotif, s.other);
            var tracked := if s.status.transport == "" then s.live else s.status.transport;
            var ready := o.observed && o.ok && forall p :: p in s.pods ==> p.config == config;
            var t := Reconciled(s, calls, o, true);
            && t.(held := s.held, cfg := s.cfg, tmpl := s.tmpl, status := s.status) == s
            && t.cfg == config && t.tmpl == Some(Pod(config, if s.kind == Inspector then tracked else ""))
            && if s.kind == Inspector && o.observed && !ready then
                 && t.status == Status(tracked, s.liveNotif, Some(config))
                 && t.held == s.held + {s.live} + Real({s.liveNotif})
               else
                 && t.status == Status(if s.status.transport != "" && !ready then s.status.transport else s.live,
                                       if s.status.notif != "" && !ready then s.status.notif else s.liveNotif,
                                       Some(config))
                 && t.held <= {t.status.transport, s.live, t.status.notif, s.liveNotif}
  {
    if Waits(s, o) {
      WaitingEndsReconcile(s, calls, o);
    } else {
      Finishes(s, calls - 10, o);
    }
    assert HeldBoth(s) == s.held + {s.live} + Real({s.liveNotif});
  }
}
