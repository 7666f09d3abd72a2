/** What one reconcile of the parent leaves behind, told by the names it was
    given and the number of calls that succeeded. */
module ReconcileOutcome {
  import opened Secrets
  import opened Wrappers
  import opened Rotation
  import opened Passes
  import opened IronicController
  import PassSafety
  import RotationRefinement
  import UndisturbedReconcile

  function AskedFor(e: Env): Inputs { Inputs(e.transport, e.notif, e.ac) }

  // ---------------------------------------------------------------------
  // The order of the pushes

  /** The reconcile ends before it comes to its services. */
  predicate Blocked(s: State, found: bool) {
    s.env.transport == "" || !found || s.status.hash != Some(Config(AskedFor(s.env), s.env.other))
  }

  /** How many services a reconcile of so many calls pushes to. */
  function PushCount(s: State, calls: nat, found: bool): (n: nat)
    ensures n <= |s.env.conductors| + 1
  {
    if Blocked(s, found) || calls < 7 then 0
    else if calls - 7 <= |s.env.conductors| then calls - 7 else |s.env.conductors| + 1
  }

  /** What the reconcile t has read and written after n steps from s. */
  ghost predicate OnTrack(s: State, t: State, n: nat, found: bool) {
    && t.variant == s.variant == AsWritten && t.env == s.env && t.run.Some?
    && var r := t.run.value;
       && Ready(r) && r.ids == s.env.conductors + [API]
       && (Idx(r.pc) <= 4 && !r.stopped ==> r.mem.hash == s.status.hash)
       && (r.transport.Some? ==> r.transport.value == s.env.transport)
       && (r.notif.Some? ==> r.notif.value == s.env.notif)
       && (r.ac.Some? ==> r.ac.value == s.env.ac)
       && (Idx(r.pc) < 5 && !r.stopped ==> r.ac.None?)
       && (r.stopped ==> Blocked(s, found) && t.children == s.children)
       && (!r.stopped ==> Counts(s, t, n, found))
  }

  ghost predicate Counts(s: State, t: State, n: nat, found: bool)
    requires t.run.Some?
  {
    var r := t.run.value;
    && (Idx(r.pc) > 0 ==> s.env.transport != "") && (Idx(r.pc) > 2 ==> found)
    && (Idx(r.pc) > 4 ==> !Blocked(s, found))
    && (Idx(r.pc) < 7 ==> n == Idx(r.pc) && r.next == 0)
    && (Idx(r.pc) == 7 ==> n == 7 + r.next)
    && (Idx(r.pc) > 7 ==> n > 7 + |r.ids| && r.next == |r.ids|)
    && r.next <= |r.ids| && t.children == PushAll(s.children, r.ids[..r.next], AskedFor(s.env))
  }

  lemma ReadingStaysOnTrack(s: State, t: State, n: nat, ok: bool, found: bool)
    requires OnTrack(s, t, n, found) && Enabled(t, Go(ok)) && t.run.value.pc == ReadTransport
    ensures OnTrack(s, Forward(t, ok, found), n + 1, found)
  {
    var u := GoParent(t, ok);
    assert u == ReadsTransport(t, t.run.value) && u.children == t.children;
    assert t.run.value.ids[..0] == [];
  }

  lemma HoldingStaysOnTrack(s: State, t: State, n: nat, ok: bool, found: bool)
    requires OnTrack(s, t, n, found) && Enabled(t, Go(ok)) && t.run.value.pc == HoldTransport
    ensures OnTrack(s, Forward(t, ok, found), n + 1, found)
  {
  }

  lemma NotifStaysOnTrack(s: State, t: State, n: nat, ok: bool, found: bool)
    requires OnTrack(s, t, n, found) && Enabled(t, Go(ok)) && 2 <= Idx(t.run.value.pc) <= 3
    ensures OnTrack(s, Forward(t, ok, found), n + 1, found)
  {
  }

  lemma RenderStaysOnTrack(s: State, t: State, n: nat, ok: bool, found: bool)
    requires OnTrack(s, t, n, found) && Enabled(t, Go(ok)) && 4 <= Idx(t.run.value.pc) <= 6
    ensures OnTrack(s, Forward(t, ok, found), n + 1, found)
  {
  }

  lemma PushStaysOnTrack(s: State, t: State, n: nat, ok: bool, found: bool)
    requires OnTrack(s, t, n, found) && Enabled(t, Go(ok)) && t.run.value.pc == Push
    ensures OnTrack(s, Forward(t, ok, found), n + 1, found)
  {
    var r := t.run.value;
    if r.next < |r.ids| {
      assert r.ids[..r.next + 1] == r.ids[..r.next] + [r.ids[r.next]];
      assert r.ids[..r.next + 1][..r.next] == r.ids[..r.next];
    }
  }

  lemma ReleasingStaysOnTrack(s: State, t: State, n: nat, ok: bool, found: bool)
    requires OnTrack(s, t, n, found) && Enabled(t, Go(ok)) && 8 <= Idx(t.run.value.pc) <= 9
    ensures OnTrack(s, Forward(t, ok, found), n + 1, found)
  {
  }

  lemma FinalizingStaysOnTrack(s: State, t: State, n: nat, ok: bool, found: bool)
    requires OnTrack(s, t, n, found) && Enabled(t, Go(ok)) && 10 <= Idx(t.run.value.pc) <= 11
    ensures OnTrack(s, Forward(t, ok, found), n + 1, found)
  {
  }

  lemma PruningStaysOnTrack(s: State, t: State, n: nat, ok: bool, found: bool)
    requires OnTrack(s, t, n, found) && Enabled(t, Go(ok)) && Idx(t.run.value.pc) > 11
    ensures OnTrack(s, Forward(t, ok, found), n + 1, found)
  {
  }

  lemma StepStaysOnTrack(s: State, t: State, n: nat, ok: bool, found: bool)
    requires OnTrack(s, t, n, found) && Enabled(t, Go(ok))
    ensures OnTrack(s, Forward(t, ok, found), n + 1, found)
  {
    var pc := t.run.value.pc;
    if pc == ReadTransport { ReadingStaysOnTrack(s, t, n, ok, found); }
    else if pc == HoldTransport { HoldingStaysOnTrack(s, t, n, ok, found); }
    else if Idx(pc) <= 3 { NotifStaysOnTrack(s, t, n, ok, found); }
    else if Idx(pc) <= 6 { RenderStaysOnTrack(s, t, n, ok, found); }
    else if pc == Push { PushStaysOnTrack(s, t, n, ok, found); }
    else if Idx(pc) <= 9 { ReleasingStaysOnTrack(s, t, n, ok, found); }
    else if Idx(pc) <= 11 { FinalizingStaysOnTrack(s, t, n, ok, found); }
    else { PruningStaysOnTrack(s, t, n, ok, found); }
  }

  lemma {:induction false} IterStaysOnTrack(s: State, t: State, n: nat, k: nat, ok: bool, found: bool) returns (m: nat)
    requires OnTrack(s, t, n, found)
    ensures var u := Iter(t, k, ok, found);
            m <= n + k && OnTrack(s, u, m, found) && (m < n + k ==> u.run.value.stopped || u.run.value.pc == Finished)
    decreases k
  {
    if k > 0 && Enabled(t, Go(ok)) {
      StepStaysOnTrack(s, t, n, ok, found);
      m := IterStaysOnTrack(s, Forward(t, ok, found), n + 1, k - 1, ok, found);
    } else {
      m := n;
    }
  }

  /** Where the reconcile has come to a halt, so many services have been pushed to. */
  lemma HaltedChildren(s: State, u: State, m: nat, calls: nat, found: bool)
    requires OnTrack(s, u, m, found) && m <= calls
    requires m < calls ==> u.run.value.stopped || u.run.value.pc == Finished
    ensures u.children == PushAll(s.children, (s.env.conductors + [API])[..PushCount(s, calls, found)], AskedFor(s.env))
  {
    assert (s.env.conductors + [API])[..0] == [];
  }

  lemma StartsOnTrack(s: State, found: bool)
    requires s.run.None? && s.variant == AsWritten
    ensures OnTrack(s, Next(s, Begin), 0, found)
  {
    assert (s.env.conductors + [API])[..0] == [];
  }

  lemma ReconciledChildren(s: State, calls: nat, ok: bool, found: bool, patched: bool)
    requires s.run.None? && s.variant == AsWritten
    ensures Reconciled(s, calls, ok, found, patched).children
            == PushAll(s.children, (s.env.conductors + [API])[..PushCount(s, calls, found)], AskedFor(s.env))
  {
    StartsOnTrack(s, found);
    var m := IterStaysOnTrack(s, Next(s, Begin), 0, calls, ok, found);
    HaltedChildren(s, Iter(Next(s, Begin), calls, ok, found), m, calls, found);
  }

  /** The first n services of the given order. */
  predicate Among(conductors: seq<Id>, n: nat, c: Id)
    requires n <= |conductors| + 1
  {
    if n <= |conductors| then c in conductors[..n] else c in conductors || c == API
  }

  /** Spec and annotation of the child carry the names; the generation moves only with the spec. */
  predicate HandedOver(before: map<Id, Child>, c: Id, child: Child, names: Inputs) {
    && child.spec == child.ann == names
    && if c in before then
         child == before[c].(spec := names, ann := names,
                             gen := if before[c].spec == names then before[c].gen else before[c].gen + 1)
       else child.gen == 1 && child.obs == 0 && child.applied.None? && child.tmpl.None? && child.pods == {}
  }

  /** However many calls succeed: the services are pushed to in order, all
      conductors before the API, one per call after the first seven; those that
      the reconcile came to carry the names asked for, and the others are left
      as they were. */
  lemma PushesInOrder(s: State, calls: nat, ok: bool, found: bool, patched: bool, c: Id)
    requires s.run.None? && s.variant == AsWritten
    ensures var t, n := Reconciled(s, calls, ok, found, patched), PushCount(s, calls, found);
            if Among(s.env.conductors, n, c) then
              c in t.children && HandedOver(s.children, c, t.children[c], AskedFor(s.env))
            else
              (c in t.children <==> c in s.children) && (c in s.children ==> t.children[c] == s.children[c])
  {
    ReconciledChildren(s, calls, ok, found, patched);
    var n, all := PushCount(s, calls, found), s.env.conductors + [API];
    assert n > |s.env.conductors| ==> all[..n] == all;
    assert n <= |s.env.conductors| ==> all[..n] == s.env.conductors[..n];
    PushedKnown(s.children, all[..n], AskedFor(s.env));
  }

  /** A reconcile that touches the j-th conductor, or the API after all of them,
      has handed the names to every conductor before it. */
  lemma TouchedInOrder(s: State, calls: nat, ok: bool, found: bool, patched: bool, j: nat, c: Id)
    requires s.run.None? && s.variant == AsWritten && j <= |s.env.conductors| && c in s.env.conductors[..j]
    requires var last := if j < |s.env.conductors| then s.env.conductors[j] else API;
             var t := Reconciled(s, calls, ok, found, patched);
             && last !in s.env.conductors[..j]
             && last in t.children && !(last in s.children && t.children[last] == s.children[last])
    ensures var t := Reconciled(s, calls, ok, found, patched);
            c in t.children && t.children[c].spec == t.children[c].ann == Inputs(s.env.transport, s.env.notif, s.env.ac)
  {
    PushesInOrder(s, calls, ok, found, patched, if j < |s.env.conductors| then s.env.conductors[j] else API);
    PushesInOrder(s, calls, ok, found, patched, c);
  }

  // ---------------------------------------------------------------------
  // Where it stops before the pushes

  function TrackedAtOnce(s: State): Name {
    if s.status.transport == "" then s.env.transport else s.status.transport
  }

  function PcAfter(calls: nat): Pc
    requires calls <= 7
  {
    match calls
    case 0 => ReadTransport case 1 => HoldTransport case 2 => ReadNotif case 3 => HoldNotif case 4 => Render
    case 5 => HoldAC case 6 => HoldInspectorAC case _ => Push
  }

  /** The cluster after so many calls. */
  function Prepared(s: State, calls: nat): State {
    s.(held := s.held + (if calls >= 2 then {s.env.transport} else {})
               + (if calls >= 4 then Real({s.env.notif}) else {}),
       cfg := if calls >= 5 then Config(AskedFor(s.env), s.env.other) else s.cfg,
       heldAC := s.heldAC + (if calls >= 6 then Real({s.env.ac}) else {}),
       heldIAC := s.heldIAC + (if calls >= 7 then Real({s.env.iac}) else {}))
  }

  /** The status that is patched after so many calls. */
  function PreparedStatus(s: State, calls: nat): Status {
    s.status.(transport := if calls >= 1 then TrackedAtOnce(s) else s.status.transport,
              notif := if calls >= 3 then s.env.notif else s.status.notif)
  }

  function Stage(s: State, calls: nat): State
    requires calls <= 7
  {
    UndisturbedReconcile.At(Prepared(s, calls), PreparedStatus(s, calls), PcAfter(calls),
                            if calls >= 5 then s.env.iac else "", 0, true)
  }

  lemma EarlyStage(s: State, calls: nat, ok: bool)
    requires calls < 4 && s.variant == AsWritten && s.env.transport != ""
    ensures Enabled(Stage(s, calls), Go(ok)) && GoParent(Stage(s, calls), ok) == Stage(s, calls + 1)
  {
    assert Manage(Prepared(s, 1).held, s.env.transport) == Prepared(s, 2).held;
    assert HoldIfNamed(Prepared(s, 3).held, s.env.notif) == Prepared(s, 4).held;
  }

  lemma LateStage(s: State, calls: nat, ok: bool)
    requires 4 <= calls < 7 && s.variant == AsWritten && s.env.transport != ""
    requires s.status.hash == Some(Config(AskedFor(s.env), s.env.other))
    ensures Enabled(Stage(s, calls), Go(ok)) && GoParent(Stage(s, calls), ok) == Stage(s, calls + 1)
  {
    assert HoldIfNamed(Prepared(s, 5).heldAC, s.env.ac) == Prepared(s, 6).heldAC;
    assert HoldIfNamed(Prepared(s, 6).heldIAC, s.env.iac) == Prepared(s, 7).heldIAC;
  }

  lemma NextStage(s: State, calls: nat, a: State, ok: bool) returns (b: State)
    requires calls < 7 && s.variant == AsWritten && s.env.transport != "" && a == Stage(s, calls)
    requires calls < 4 || s.status.hash == Some(Config(AskedFor(s.env), s.env.other))
    ensures b == Stage(s, calls + 1) && Enabled(a, Go(ok)) && GoParent(a, ok) == b
  {
    if calls < 4 { EarlyStage(s, calls, ok); } else { LateStage(s, calls, ok); }
    b := Stage(s, calls + 1);
  }

  lemma OneCall(a: State, b: State, k: nat, ok: bool, found: bool)
    requires Enabled(a, Go(ok)) && GoParent(a, ok) == b && (found || a.run.value.pc != ReadNotif)
    ensures Iter(a, k + 1, ok, found) == Iter(b, k, ok, found)
  {
    IterOnce(a, k + 1, ok, found);
  }

  lemma Stops(s: State, calls: nat, ok: bool, found: bool, patched: bool, u: State)
    requires s.run.None? && Iter(Next(s, Begin), calls, ok, found) == Iter(u, 0, ok, found) && u.run.Some?
    ensures Reconciled(s, calls, ok, found, patched) == Next(u, End(patched))
  {
  }

  lemma {:induction false} StagesFollow(s: State, from: nat, a: State, to: nat, calls: nat, k: nat, ok: bool,
                                        found: bool)
    returns (b: State)
    requires from <= to <= 7 && s.variant == AsWritten && s.env.transport != "" && a == Stage(s, from)
    requires to <= 4 || s.status.hash == Some(Config(AskedFor(s.env), s.env.other))
    requires (found || to <= 2) && calls == to - from + k
    ensures b == Stage(s, to) && Iter(a, calls, ok, found) == Iter(b, k, ok, found)
    decreases calls
  {
    b := a;
    if from < to {
      b := NextStage(s, from, a, ok);
      OneCall(a, b, calls - 1, ok, found);
      b := StagesFollow(s, from + 1, b, to, calls - 1, k, ok, found);
    }
  }

  lemma ComesToStage(s: State, calls: nat, total: nat, k: nat, ok: bool, found: bool) returns (b: State)
    requires s.run.None? && s.variant == AsWritten && s.env.transport != "" && calls <= 7 && (found || calls <= 2)
    requires calls <= 4 || s.status.hash == Some(Config(AskedFor(s.env), s.env.other))
    requires total == calls + k
    ensures b == Stage(s, calls) && Iter(Next(s, Begin), total, ok, found) == Iter(b, k, ok, found)
  {
    var a := Next(s, Begin);
    assert a == Stage(s, 0);
    b := StagesFollow(s, 0, a, calls, total, k, ok, found);
  }

  lemma PatchedStage(s: State, calls: nat, u: State, patched: bool)
    requires s.run.None? && calls <= 7 && u == Stage(s, calls)
    ensures u.run.Some?
    ensures Next(u, End(patched))
            == Prepared(s, calls).(status := if patched then PreparedStatus(s, calls) else s.status)
  {
  }

  lemma StoppedStage(s: State, calls: nat, ok: bool, found: bool, patched: bool) returns (u: State)
    requires s.run.None? && s.variant == AsWritten && s.env.transport != "" && calls <= 7 && (found || calls <= 2)
    requires calls <= 4 || s.status.hash == Some(Config(AskedFor(s.env), s.env.other))
    ensures Iter(Next(s, Begin), calls, ok, found) == Iter(u, 0, ok, found) && u.run.Some?
    ensures Next(u, End(patched))
            == Prepared(s, calls).(status := if patched then PreparedStatus(s, calls) else s.status)
  {
    u := ComesToStage(s, calls, calls, 0, ok, found);
    PatchedStage(s, calls, u, patched);
  }

  /** A reconcile that stops in its first calls: the transport secret is tracked
      at once on first setup only, held before it is rendered, and so is the
      notifications secret; the credentials come after the config. */
  lemma StopsEarly(s: State, calls: nat, ok: bool, found: bool, patched: bool)
    requires s.run.None? && s.variant == AsWritten && s.env.transport != "" && calls <= 7 && (found || calls <= 2)
    requires calls <= 4 || s.status.hash == Some(Config(AskedFor(s.env), s.env.other))
    ensures Reconciled(s, calls, ok, found, patched)
            == Prepared(s, calls).(status := if patched then PreparedStatus(s, calls) else s.status)
  {
    var u := StoppedStage(s, calls, ok, found, patched);
    Stops(s, calls, ok, found, patched, u);
  }

  // ---------------------------------------------------------------------
  // Where it returns early

  /** Where the failing lookup ends the reconcile. */
  ghost predicate Forgotten(s: State, t: State) {
    && t.run.Some? && t.run.value.mem == s.status.(transport := TrackedAtOnce(s), notif := "")
    && t.(run := None) == s.(held := s.held + {s.env.transport})
  }

  lemma LookupStops(s: State, a: State, k: nat, ok: bool)
    requires a == Stage(s, 2) && s.variant == AsWritten && s.run.None?
    ensures Forgotten(s, Iter(a, k + 1, ok, false))
  {
    IterFails(a, k + 1, ok);
    assert s.held + {s.env.transport} + {} == s.held + {s.env.transport};
  }

  lemma ForgottenAfter(s: State, calls: nat, ok: bool)
    requires s.run.None? && s.variant == AsWritten && s.env.transport != "" && calls >= 3
    ensures Forgotten(s, Iter(Next(s, Begin), calls, ok, false))
  {
    var c := ComesToStage(s, 2, calls, calls - 2, ok, false);
    LookupStops(s, c, calls - 3, ok);
  }

  /** A failing lookup of the notifications TransportURL forgets the tracked
      secret, and nothing else has happened but that the transport secret is held. */
  lemma LookupFails(s: State, calls: nat, ok: bool, patched: bool)
    requires s.run.None? && s.variant == AsWritten && s.env.transport != "" && calls >= 3
    ensures Reconciled(s, calls, ok, false, patched)
            == s.(held := s.held + {s.env.transport},
                  status := if patched then s.status.(transport := TrackedAtOnce(s), notif := "") else s.status)
  {
    ForgottenAfter(s, calls, ok);
  }

  /** Without a transport secret nothing happens at all. */
  lemma WaitsForTransport(s: State, calls: nat, ok: bool, found: bool, patched: bool)
    requires s.run.None? && s.env.transport == ""
    ensures Reconciled(s, calls, ok, found, patched) == s
  {
    var a := Next(s, Begin);
    if calls > 0 { IterOnce(a, calls, ok, found); }
  }

  /** A changed config is rendered and recorded, and that is all. */
  lemma ConfigChanges(s: State, calls: nat, ok: bool)
    requires s.run.None? && s.variant == AsWritten && s.env.transport != "" && calls >= 5
    requires s.status.hash != Some(Config(Inputs(s.env.transport, s.env.notif, s.env.ac), s.env.other))
    ensures var config := Config(Inputs(s.env.transport, s.env.notif, s.env.ac), s.env.other);
            Reconciled(s, calls, ok, true, true)
            == s.(held := s.held + {s.env.transport} + Real({s.env.notif}), cfg := config,
                  status := s.status.(transport := TrackedAtOnce(s), notif := s.env.notif, hash := Some(config)))
  {
    UndisturbedReconcile.ReturnsEarly(s, calls - 5, ok);
    assert HoldBoth(s) == s.held + {s.env.transport} + Real({s.env.notif});
  }

  // ---------------------------------------------------------------------
  // Where it comes to its end

  /** Every service, as the reconcile leaves it, has observed and reported the names. */
  ghost predicate AllReport(e: Env, children: map<Id, Child>) {
    forall c :: c in e.conductors || c == API ==>
      c in children && children[c].gen == children[c].obs && children[c].applied == Some(AskedFor(e))
  }

  lemma AllReportIff(s: State, ok: bool)
    ensures UndisturbedReconcile.AllServicesReady(s, ok) <==>
              ok && AllReport(s.env, PushAll(s.children, s.env.conductors + [API], AskedFor(s.env)))
  {
    assert Ids(s.env)[..|Ids(s.env)|] == s.env.conductors + [API];
    assert forall c :: c in Ids(s.env) <==> c in s.env.conductors || c == API;
  }

  lemma {:induction false} PushesSome(s: State, i: nat, a: State, m: nat, calls: nat, k: nat, ok: bool)
    returns (b: State)
    requires s.env.transport != "" && i <= m <= |Ids(s.env)| && a == UndisturbedReconcile.PushingRun(s, i)
    requires calls == m - i + k
    ensures b == UndisturbedReconcile.PushingRun(s, m) && Iter(a, calls, ok, true) == Iter(b, k, ok, true)
    decreases calls
  {
    b := a;
    if i < m {
      b := PushesNext(s, i, a, ok);
      OneCall(a, b, calls - 1, ok, true);
      b := PushesSome(s, i + 1, b, m, calls - 1, k, ok);
    }
  }

  lemma PushesNext(s: State, i: nat, a: State, ok: bool) returns (b: State)
    requires s.env.transport != "" && i < |Ids(s.env)| && a == UndisturbedReconcile.PushingRun(s, i)
    ensures b == UndisturbedReconcile.PushingRun(s, i + 1) && Enabled(a, Go(ok)) && GoParent(a, ok) == b
  {
    UndisturbedReconcile.PushOne(s, i, ok);
    b := GoParent(a, ok);
  }

  lemma PushingStarts(s: State)
    requires s.variant == AsWritten
    ensures Stage(s, 7) == UndisturbedReconcile.PushingRun(s, 0)
  {
    var u := UndisturbedReconcile.Pushing(s, 0);
    assert Ids(s.env)[..0] == [];
    assert u.held == Prepared(s, 7).held && u.heldAC == Prepared(s, 7).heldAC && u.heldIAC == Prepared(s, 7).heldIAC;
  }

  lemma ComesToPush(s: State, i: nat, calls: nat, k: nat, ok: bool) returns (c: State)
    requires s.run.None? && s.variant == AsWritten && s.env.transport != "" && i <= |s.env.conductors| + 1
    requires s.status.hash == Some(Config(AskedFor(s.env), s.env.other)) && calls == 7 + i + k
    ensures c == UndisturbedReconcile.PushingRun(s, i) && Iter(Next(s, Begin), calls, ok, true) == Iter(c, k, ok, true)
  {
    var b := ComesToStage(s, 7, calls, i + k, ok, true);
    PushingStarts(s);
    c := PushesSome(s, 0, b, i, i + k, k, ok);
  }

  lemma PatchedPush(s: State, i: nat, patched: bool)
    requires s.run.None? && s.variant == AsWritten && i <= |s.env.conductors| + 1
    ensures var u := UndisturbedReconcile.PushingRun(s, i); var t := Next(u, End(patched));
            && u.run.Some?
            && t == Prepared(s, 7).(children := t.children,
                                    status := if patched then PreparedStatus(s, 7) else s.status)
  {
    var u := UndisturbedReconcile.Pushing(s, i);
    assert u.held == Prepared(s, 7).held && u.heldAC == Prepared(s, 7).heldAC && u.heldIAC == Prepared(s, 7).heldIAC;
  }

  /** A reconcile that stops among the pushes has released nothing, and tracks
      what it tracked before its first push. */
  lemma StopsWhilePushing(s: State, calls: nat, ok: bool, patched: bool)
    requires s.run.None? && s.variant == AsWritten && s.env.transport != "" && 7 <= calls <= |s.env.conductors| + 8
    requires s.status.hash == Some(Config(AskedFor(s.env), s.env.other))
    ensures var t := Reconciled(s, calls, ok, true, patched);
            t == Prepared(s, 7).(children := t.children, status := if patched then PreparedStatus(s, 7) else s.status)
  {
    var u := ComesToPush(s, calls - 7, calls, 0, ok);
    PatchedPush(s, calls - 7, patched);
    Stops(s, calls, ok, true, patched, u);
  }

  // ---------------------------------------------------------------------
  // The release of the previous secrets

  /** What is tracked after a rotation may have ended. */
  function TrackedFrom(previous: Name, current: Name, ready: bool): Name {
    if previous != "" && !ready then previous else current
  }

  function Released(held: set<Name>, previous: Name, current: Name, ready: bool): set<Name> {
    if ready && previous != "" && previous != current then held - {previous} else held
  }

  /** The status after so many of the last seven calls. */
  function ClosingStatus(s: State, ready: bool, calls: nat): Status {
    var e, early := s.env, PreparedStatus(s, 7);
    early.(ac := if calls >= 1 then TrackedFrom(s.status.ac, e.ac, ready) else s.status.ac,
           iac := if calls >= 2 then TrackedFrom(s.status.iac, e.iac, ready) else s.status.iac,
           transport := if calls >= 3 then TrackedFrom(s.status.transport, e.transport, ready) else early.transport,
           notif := if calls >= 4 then TrackedFrom(s.status.notif, e.notif, ready) else early.notif)
  }

  /** The holders of the transport finalizer after so many of the last seven calls. */
  function ClosingHeld(s: State, ready: bool, calls: nat): set<Name> {
    var e, u, mem := s.env, Prepared(s, 7), ClosingStatus(s, ready, 7);
    var h3 := Released(u.held, s.status.transport, e.transport, ready);
    var h4 := Released(h3, s.status.notif, e.notif, ready);
    if calls < 3 then u.held else if calls == 3 then h3 else if calls == 4 then h4
    else h4 * {mem.transport, e.transport, mem.notif, e.notif}
  }

  function ClosingHeldAC(s: State, ready: bool, calls: nat): set<Name> {
    var h := Released(Prepared(s, 7).heldAC, s.status.ac, s.env.ac, ready);
    if calls < 1 then Prepared(s, 7).heldAC
    else if calls < 6 then h else h * {TrackedFrom(s.status.ac, s.env.ac, ready), s.env.ac}
  }

  function ClosingHeldIAC(s: State, ready: bool, calls: nat): set<Name> {
    var h := Released(Prepared(s, 7).heldIAC, s.status.iac, s.env.iac, ready);
    if calls < 2 then Prepared(s, 7).heldIAC
    else if calls < 7 then h else h * {TrackedFrom(s.status.iac, s.env.iac, ready), s.env.iac}
  }

  /** The cluster after so many of the last seven calls. */
  function Closing(s: State, children: map<Id, Child>, ready: bool, calls: nat): State {
    Prepared(s, 7).(children := children, held := ClosingHeld(s, ready, calls),
                    heldAC := ClosingHeldAC(s, ready, calls), heldIAC := ClosingHeldIAC(s, ready, calls))
  }

  function ClosingPc(calls: nat): Pc
    requires calls <= 7
  {
    match calls
    case 0 => FinAC case 1 => FinInspectorAC case 2 => FinTransport case 3 => FinNotif
    case 4 => PruneTransport case 5 => PruneAC case 6 => PruneInspectorAC case _ => Finished
  }

  function ClosingRun(s: State, children: map<Id, Child>, ready: bool, calls: nat): State
    requires calls <= 7
  {
    UndisturbedReconcile.At(Closing(s, children, ready, calls), ClosingStatus(s, ready, calls), ClosingPc(calls),
                            s.env.iac, |Ids(s.env)|, ready)
  }

  lemma CredentialsNext(s: State, children: map<Id, Child>, ready: bool, calls: nat, ok: bool)
    requires calls < 2 && s.variant == AsWritten && s.env.transport != ""
    ensures var a := ClosingRun(s, children, ready, calls);
            Enabled(a, Go(ok)) && GoParent(a, ok) == ClosingRun(s, children, ready, calls + 1)
  {
  }

  lemma TransportsNext(s: State, children: map<Id, Child>, ready: bool, calls: nat, ok: bool)
    requires 2 <= calls < 4 && s.variant == AsWritten && s.env.transport != ""
    ensures var a := ClosingRun(s, children, ready, calls);
            Enabled(a, Go(ok)) && GoParent(a, ok) == ClosingRun(s, children, ready, calls + 1)
  {
  }

  lemma PrunesNext(s: State, children: map<Id, Child>, ready: bool, calls: nat, ok: bool)
    requires 4 <= calls < 7 && s.variant == AsWritten && s.env.transport != ""
    ensures var a := ClosingRun(s, children, ready, calls);
            Enabled(a, Go(ok)) && GoParent(a, ok) == ClosingRun(s, children, ready, calls + 1)
  {
  }

  lemma ClosingNext(s: State, children: map<Id, Child>, ready: bool, calls: nat, a: State, ok: bool) returns (b: State)
    requires calls < 7 && s.variant == AsWritten && s.env.transport != "" && a == ClosingRun(s, children, ready, calls)
    ensures b == ClosingRun(s, children, ready, calls + 1) && Enabled(a, Go(ok)) && GoParent(a, ok) == b
  {
    if calls < 2 { CredentialsNext(s, children, ready, calls, ok); }
    else if calls < 4 { TransportsNext(s, children, ready, calls, ok); }
    else { PrunesNext(s, children, ready, calls, ok); }
    b := ClosingRun(s, children, ready, calls + 1);
  }

  lemma {:induction false} ClosingFollows(s: State, children: map<Id, Child>, ready: bool, from: nat, a: State,
                                          to: nat, calls: nat, ok: bool)
    returns (b: State)
    requires from <= to <= 7 && s.variant == AsWritten && s.env.transport != "" && calls == to - from
    requires a == ClosingRun(s, children, ready, from)
    ensures b == ClosingRun(s, children, ready, to) && Iter(a, calls, ok, true) == Iter(b, 0, ok, true)
    decreases calls
  {
    b := a;
    if from < to {
      b := ClosingNext(s, children, ready, from, a, ok);
      OneCall(a, b, calls - 1, ok, true);
      b := ClosingFollows(s, children, ready, from + 1, b, to, calls - 1, ok);
    }
  }

  /** The children, and whether they are ready, when all pushes are done. */
  ghost predicate Pushed(s: State, children: map<Id, Child>, ready: bool, ok: bool) {
    && children == PushAll(s.children, s.env.conductors + [API], AskedFor(s.env))
    && (ready <==> ok && AllReport(s.env, children))
  }

  lemma LeavesLoop(s: State, children: map<Id, Child>, ready: bool, a: State, k: nat, ok: bool) returns (b: State)
    requires s.variant == AsWritten && s.env.transport != "" && Pushed(s, children, ready, ok)
    requires a == UndisturbedReconcile.PushingRun(s, |s.env.conductors| + 1)
    ensures b == ClosingRun(s, children, ready, 0) && Iter(a, k + 1, ok, true) == Iter(b, k, ok, true)
  {
    var n := |Ids(s.env)|;
    UndisturbedReconcile.LeavesLoop(s, k, ok);
    AllReportIff(s, ok);
    var u := UndisturbedReconcile.Pushing(s, n);
    assert Ids(s.env)[..n] == s.env.conductors + [API];
    assert u.held == Prepared(s, 7).held && u.heldAC == Prepared(s, 7).heldAC && u.heldIAC == Prepared(s, 7).heldIAC;
    b := ClosingRun(s, children, ready, 0);
  }

  lemma Closes(s: State, children: map<Id, Child>, ready: bool, last: nat, calls: nat, ok: bool) returns (u: State)
    requires s.run.None? && s.variant == AsWritten && s.env.transport != "" && Pushed(s, children, ready, ok)
    requires s.status.hash == Some(Config(AskedFor(s.env), s.env.other))
    requires last <= 7 && calls == |s.env.conductors| + 9 + last
    ensures u == ClosingRun(s, children, ready, last) && Iter(Next(s, Begin), calls, ok, true) == Iter(u, 0, ok, true)
  {
    u := ComesToPush(s, |s.env.conductors| + 1, calls, last + 1, ok);
    u := LeavesLoop(s, children, ready, u, last, ok);
    u := ClosingFollows(s, children, ready, 0, u, last, last, ok);
  }

  lemma PatchedClosing(s: State, children: map<Id, Child>, ready: bool, last: nat, patched: bool)
    requires s.run.None? && last <= 7
    ensures ClosingRun(s, children, ready, last).run.Some?
    ensures Next(ClosingRun(s, children, ready, last), End(patched))
            == Closing(s, children, ready, last).(status := if patched then ClosingStatus(s, ready, last) else s.status)
  {
  }

  lemma ReconciledClosing(s: State, children: map<Id, Child>, ready: bool, last: nat, calls: nat, ok: bool,
                          patched: bool)
    requires s.run.None? && s.variant == AsWritten && s.env.transport != "" && Pushed(s, children, ready, ok)
    requires s.status.hash == Some(Config(AskedFor(s.env), s.env.other))
    requires last <= 7 && calls == |s.env.conductors| + 9 + last
    ensures Reconciled(s, calls, ok, true, patched)
            == Closing(s, children, ready, last).(status := if patched then ClosingStatus(s, ready, last) else s.status)
  {
    var u := Closes(s, children, ready, last, calls, ok);
    PatchedClosing(s, children, ready, last, patched);
    Stops(s, calls, ok, true, patched, u);
  }

  /** A reconcile that stops while it releases the previous secrets, or after
      that: the credential comes first, then the inspector's, the transport
      secret and the notifications secret, each released and tracked no more
      exactly when every service, as this reconcile leaves it, reports the names
      asked for; the three prunes follow. */
  lemma StopsClosing(s: State, calls: nat, ok: bool, patched: bool)
    requires s.run.None? && s.variant == AsWritten && s.env.transport != ""
    requires |s.env.conductors| + 9 <= calls <= |s.env.conductors| + 16
    requires s.status.hash == Some(Config(AskedFor(s.env), s.env.other))
    ensures var t, last := Reconciled(s, calls, ok, true, patched), calls - |s.env.conductors| - 9;
            var ready := ok && AllReport(s.env, t.children);
            t == Closing(s, t.children, ready, last)
                 .(status := if patched then ClosingStatus(s, ready, last) else s.status)
  {
    var children := PushAll(s.children, s.env.conductors + [API], AskedFor(s.env));
    var ready := ok && AllReport(s.env, children);
    ReconciledClosing(s, children, ready, calls - |s.env.conductors| - 9, calls, ok, patched);
  }

  /** A reconcile that runs to its end tracks the secrets asked for as soon as
      every service reports them, and until then the ones tracked before; the
      finalizers of the credentials are on these and on no others. */
  lemma RunsToEnd(s: State, calls: nat, ok: bool)
    requires s.run.None? && s.variant == AsWritten && s.env.transport != "" && calls >= |s.env.conductors| + 16
    requires s.status.hash == Some(Config(Inputs(s.env.transport, s.env.notif, s.env.ac), s.env.other))
    ensures var t := Reconciled(s, calls, ok, true, true);
            var ready := ok && AllReport(s.env, t.children);
            && t.env == s.env && t.cfg == Config(Inputs(s.env.transport, s.env.notif, s.env.ac), s.env.other)
            && t.status == Status(TrackedFrom(s.status.transport, s.env.transport, ready),
                                  TrackedFrom(s.status.notif, s.env.notif, ready),
                                  TrackedFrom(s.status.ac, s.env.ac, ready),
                                  TrackedFrom(s.status.iac, s.env.iac, ready), s.status.hash)
            && (forall n :: n != "" ==> (n in t.heldAC <==> n == s.env.ac || (n in s.heldAC && n == t.status.ac)))
            && (forall n :: n != "" ==> (n in t.heldIAC <==> n == s.env.iac || (n in s.heldIAC && n == t.status.iac)))
            && t.held <= {t.status.transport, s.env.transport, t.status.notif, s.env.notif}
  {
    UndisturbedReconcile.UndisturbedIsPass(s, calls, ok);
    assert forall c :: c in Ids(s.env) <==> c in s.env.conductors || c == API;
  }

  // ---------------------------------------------------------------------
  // After a failing lookup

  /** After a single failing lookup the tracked notifications secret is tracked
      no more; the next reconcile that runs to its end takes its finalizer off,
      ready or not, unless that very secret is asked for again. */
  lemma FailedLookupForgets(s: State, calls: nat, ok: bool, ok': bool)
    requires s.run.None? && s.variant == AsWritten && s.env.transport != "" && calls >= 3
    requires RotationRefinement.NamesApart(s) && s.status.notif in s.held && s.status.notif != ""
    ensures var u := Reconciled(s, calls, ok, false, true); var t := ParentPass(u, ok');
            && u.status.notif == "" && s.status.notif in u.held && u.children == s.children
            && (s.status.notif in t.held <==>
                  || s.status.notif == s.env.notif
                  || s.status.hash != Some(Config(Inputs(s.env.transport, s.env.notif, s.env.ac), s.env.other)))
  {
    LookupFails(s, calls, ok, true);
    var u := Reconciled(s, calls, ok, false, true);
    assert RotationRefinement.NamesApart(u);
    PassSafety.NotificationKeptIff(u, ok', s.status.notif);
  }

  // ---------------------------------------------------------------------
  // When the patch fails

  lemma ForwardKeepsStatus(t: State, ok: bool, found: bool)
    requires Enabled(t, Go(ok))
    ensures Forward(t, ok, found).status == t.status && Forward(t, ok, found).run.Some?
  {
    RotationRefinement.GoKeepsRest(t, ok);
  }

  lemma {:induction false} IterKeepsStatus(t: State, k: nat, ok: bool, found: bool)
    requires t.run.Some?
    ensures Iter(t, k, ok, found).status == t.status && Iter(t, k, ok, found).run.Some?
    decreases k
  {
    if k > 0 && Enabled(t, Go(ok)) {
      ForwardKeepsStatus(t, ok, found);
      IterKeepsStatus(Forward(t, ok, found), k - 1, ok, found);
    }
  }

  /** Everything but the status is as if it had succeeded. */
  lemma PatchFails(s: State, calls: nat, ok: bool, found: bool)
    requires s.run.None?
    ensures Reconciled(s, calls, ok, found, false) == Reconciled(s, calls, ok, found, true).(status := s.status)
  {
    IterKeepsStatus(Next(s, Begin), calls, ok, found);
  }
}
