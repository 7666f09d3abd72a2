/** The Ironic controller on its own fields: the in-memory status is updated as
    the reconcile goes along, every call may fail, and the status is patched on
    every way out. */
module IronicController {
  import opened Secrets
  import opened Wrappers
  import opened Rotation
  import Passes
  import Deletion

  /** The next step of the parent; found says whether the lookup of the
      notifications TransportURL succeeds. */
  function Forward(s: State, ok: bool, found: bool): State
    requires Enabled(s, Go(ok))
  {
    if !found && Enabled(s, NotifError) then Next(s, NotifError) else GoParent(s, ok)
  }

  /** The parent after k more steps, or fewer when it stops by itself. */
  ghost function Iter(s: State, k: nat, ok: bool, found: bool): State
    decreases k
  {
    if k > 0 && Enabled(s, Go(ok)) then Iter(Forward(s, ok, found), k - 1, ok, found) else s
  }

  lemma IterOnce(s: State, k: nat, ok: bool, found: bool)
    requires k > 0 && Enabled(s, Go(ok)) && (found || s.run.value.pc != ReadNotif)
    ensures Iter(s, k, ok, found) == Iter(GoParent(s, ok), k - 1, ok, found)
  {
  }

  lemma IterFails(s: State, k: nat, ok: bool)
    requires k > 0 && Enabled(s, Go(ok)) && Enabled(s, NotifError)
    ensures Iter(s, k, ok, false) == Iter(Next(s, NotifError), k - 1, ok, false)
  {
  }

  /** The step that leaves the loop over the children. */
  lemma LastPush(s: State, ok: bool)
    requires Enabled(s, Go(ok)) && s.run.value.pc == Push && s.run.value.next == |s.run.value.ids|
    ensures GoParent(s, ok) == s.(run := Some(s.run.value.(pc := FinAC, ready := s.run.value.ready && ok)))
  {
  }

  lemma ForwardIsStep(s: State, ok: bool, found: bool)
    requires Enabled(s, Go(ok))
    ensures Passes.Reaches(s, Forward(s, ok, found))
  {
    if !found && Enabled(s, NotifError) { Passes.ReachesOne(s, NotifError); } else { Passes.ReachesOne(s, Go(ok)); }
  }

  lemma {:induction false} IterIsRun(s: State, k: nat, ok: bool, found: bool)
    ensures Passes.Reaches(s, Iter(s, k, ok, found))
    decreases k
  {
    if k > 0 && Enabled(s, Go(ok)) {
      var t := Forward(s, ok, found);
      IterIsRun(t, k - 1, ok, found);
      ForwardIsStep(s, ok, found);
      Passes.ReachesTrans(s, t, Iter(t, k - 1, ok, found));
    } else {
      Passes.ReachesSelf(s);
    }
  }

  /** What a reconcile leaves behind when its first calls succeed, the
      notifications lookup as found says, and the next call fails. */
  ghost function Reconciled(s: State, calls: nat, ok: bool, found: bool, patched: bool): State
    requires s.run.None?
  {
    var t := Iter(Next(s, Begin), calls, ok, found);
    if t.run.Some? then Next(t, End(patched)) else t
  }

  lemma ReconciledIsRun(s: State, calls: nat, ok: bool, found: bool, patched: bool)
    requires s.run.None?
    ensures Passes.Reaches(s, Reconciled(s, calls, ok, found, patched))
  {
    Passes.ReachesOne(s, Begin);
    var t := Iter(Next(s, Begin), calls, ok, found);
    IterIsRun(Next(s, Begin), calls, ok, found);
    Passes.ReachesTrans(s, Next(s, Begin), t);
    if t.run.Some? { Passes.ReachesNext(s, t, End(patched)); }
  }

  predicate OnNames(children: map<Id, Child>, c: Id, names: Inputs) {
    c in children && children[c].spec == children[c].ann == names
  }

  predicate Untouched(before: map<Id, Child>, children: map<Id, Child>, c: Id) {
    (c in children <==> c in before) && (c in before ==> children[c] == before[c])
  }

  class Controller {
    // What the API server stores
    var env: Env
    var status: Status
    var held: set<Name>
    var heldAC: set<Name>
    var heldIAC: set<Name>
    var cfg: Config
    var children: map<Id, Child>
    var ownFinalizer: bool          // the CR's own finalizer
    // instance.Status in memory
    var transportURLSecret: Name
    var notificationsURLSecret: Name
    var applicationCredentialSecret: Name
    var inspectorApplicationCredentialSecret: Name
    var inputHash: Option<Config>
    // history
    ghost const everTransport: set<Name>
    ghost const everNotif: set<Name>

    ghost function Stored(): State
      reads this
    {
      State(AsWritten, env, status, held, heldAC, heldIAC, cfg, children, None, everTransport, everNotif)
    }

    /** The fields are those of t, a state with a reconcile under way. */
    ghost predicate Mirrors(t: State)
      reads this
    {
      && t.run.Some?
      && Stored() == t.(run := None)
      && Status(transportURLSecret, notificationsURLSecret, applicationCredentialSecret,
                inspectorApplicationCredentialSecret, inputHash) == t.run.value.mem
    }

    /** The reconcile stands before step pc with its locals read. */
    ghost predicate Stands(t: State, pc: Pc, next: nat)
      reads this
    {
      && Mirrors(t) && t.run.value.pc == pc && !t.run.value.stopped && WfLocals(t.run.value)
      && (pc == Render ==> t.run.value.ac.None?)
      && t.run.value.ids == Ids(env) && t.run.value.next == next
    }

    /** The reconcile stands before step pc and its locals hold these values. */
    ghost predicate Ahead(t: State, pc: Pc, next: nat, inputs: Inputs, iac: Name, ready: bool)
      requires Idx(pc) > 4
      reads this
    {
      Stands(t, pc, next) && CurrentInputs(t.run.value) == inputs && t.run.value.iac == iac
          && t.run.value.ready == ready
    }

    /** Reads the TransportURL; its secret is tracked at once on first setup. */
    method ReadTransportURL(ok: bool, ghost g: State) returns (transport: Name)
      requires Stands(g, ReadTransport, 0) && g.run.value.mem.transport == status.transport
      modifies `transportURLSecret
      ensures transport == env.transport && Mirrors(GoParent(g, ok))
      ensures transport == "" ==> !Enabled(GoParent(g, ok), Go(ok))
      ensures transport != "" ==> Stands(GoParent(g, ok), HoldTransport, 0)
      ensures transport != "" ==> GoParent(g, ok).run.value.transport == Some(transport)
      ensures GoParent(g, ok).run.value.ready == g.run.value.ready
    {
      transport := env.transport;
      if transport == "" { return; }
      if transportURLSecret == "" || transportURLSecret == transport {
        transportURLSecret := transport;
      }
    }

    method ManageTransportFinalizer(transport: Name, ok: bool, ghost g: State)
      requires Stands(g, HoldTransport, 0) && g.run.value.transport == Some(transport)
      modifies `held
      ensures Stands(GoParent(g, ok), ReadNotif, 0) && GoParent(g, ok).run.value.transport == Some(transport)
      ensures GoParent(g, ok).run.value.ready == g.run.value.ready
    {
      held := Manage(held, transport);
    }

    /** ensureNotificationsTransportURL: the tracked name is overwritten. */
    method EnsureNotificationsTransportURL(ok: bool, found: bool, ghost g: State) returns (notif: Name, failed: bool)
      requires Stands(g, ReadNotif, 0) && g.variant == AsWritten
      modifies `notificationsURLSecret
      ensures failed <==> !found
      ensures failed ==> Mirrors(Next(g, NotifError)) && notificationsURLSecret == ""
      ensures failed ==> !Enabled(Next(g, NotifError), Go(ok))
      ensures !failed ==> notif == env.notif && Stands(GoParent(g, ok), HoldNotif, 0)
      ensures !failed ==> GoParent(g, ok).run.value.transport == g.run.value.transport
      ensures !failed ==> GoParent(g, ok).run.value.notif == Some(notif)
      ensures !failed ==> GoParent(g, ok).run.value.ready == g.run.value.ready
    {
      notif, failed := "", !found;
      notificationsURLSecret := "";
      if failed { return; }
      notif := env.notif;
      notificationsURLSecret := notif;
    }

    method ManageNotificationsFinalizer(notif: Name, ok: bool, ghost g: State)
      requires Stands(g, HoldNotif, 0) && g.run.value.notif == Some(notif)
      modifies `held
      ensures Stands(GoParent(g, ok), Render, 0)
      ensures GoParent(g, ok).run.value.transport == g.run.value.transport
              && GoParent(g, ok).run.value.notif == Some(notif)
      ensures GoParent(g, ok).run.value.ready == g.run.value.ready
    {
      if notif != "" { held := Manage(held, notif); }
    }

    /** Renders the config and compares its hash with the one in the status. */
    method GenerateServiceConfig(transport: Name, notif: Name, ok: bool, ghost g: State) returns (hashChanged: bool)
      requires Stands(g, Render, 0) && g.run.value.transport == Some(transport) && g.run.value.notif == Some(notif)
      modifies `cfg, `inputHash
      ensures Mirrors(GoParent(g, ok)) && (hashChanged ==> !Enabled(GoParent(g, ok), Go(ok)))
      ensures !hashChanged ==> Ahead(GoParent(g, ok), HoldAC, 0, Inputs(transport, notif, env.ac), env.iac,
                                     g.run.value.ready)
    {
      cfg := Config(Inputs(transport, notif, env.ac), env.other);
      hashChanged := inputHash != Some(cfg);
      inputHash := Some(cfg);
    }

    method ManageCredentialFinalizer(inputs: Inputs, ok: bool, ghost g: State)
      requires Ahead(g, HoldAC, 0, inputs, env.iac, true)
      modifies `heldAC
      ensures Ahead(GoParent(g, ok), HoldInspectorAC, 0, inputs, env.iac, true)
    {
      if inputs.ac != "" { heldAC := Manage(heldAC, inputs.ac); }
    }

    method ManageInspectorCredentialFinalizer(inputs: Inputs, ok: bool, ghost g: State)
      requires Ahead(g, HoldInspectorAC, 0, inputs, env.iac, true)
      modifies `heldIAC
      ensures Ahead(GoParent(g, ok), Push, 0, inputs, env.iac, true)
    {
      if env.iac != "" { heldIAC := Manage(heldIAC, env.iac); }
    }

    /** CreateOrUpdate of one child, and the readiness test on what it returns. */
    method DeployChild(c: Id, inputs: Inputs, ok: bool, ghost g: State, i: nat, allServicesReady: bool)
      returns (stillReady: bool)
      requires i < |Ids(env)| && c == Ids(env)[i] && Ahead(g, Push, i, inputs, env.iac, allServicesReady)
      modifies `children
      ensures Ahead(GoParent(g, ok), Push, i + 1, inputs, env.iac, stillReady)
      ensures OnNames(children, c, inputs) && children == old(children)[c := children[c]]
    {
      var child;
      if c !in children {
        child := Child(inputs, inputs, 1, 0, None, None, None, {}, {}, None);
      } else {
        child := children[c];
        if child.spec != inputs { child := child.(spec := inputs, gen := child.gen + 1); }
        child := child.(ann := inputs);
      }
      assert child == PushedChild(children, c, inputs);
      children := children[c := child];
      stillReady := allServicesReady;
      if !(child.gen == child.obs && child.applied == Some(inputs)) { stillReady := false; }
    }

    /** The standalone services have the last word on readiness. */
    method CheckStandaloneServices(inputs: Inputs, allServicesReady: bool, ok: bool, ghost g: State)
      returns (stillReady: bool)
      requires Ahead(g, Push, |Ids(env)|, inputs, env.iac, allServicesReady)
      ensures Ahead(GoParent(g, ok), FinAC, |Ids(env)|, inputs, env.iac, stillReady)
    {
      LastPush(g, ok);
      stillReady := allServicesReady && ok;
    }

    /** The first n conductors have the names, and nothing else was touched. */
    ghost predicate Reached(before: map<Id, Child>, n: nat, inputs: Inputs)
      requires n <= |env.conductors|
      reads this
    {
      && (forall c :: c in env.conductors[..n] ==> OnNames(children, c, inputs))
      && (forall c :: c !in env.conductors[..n] ==> Untouched(before, children, c))
    }

    method DeployConductor(i: nat, left: nat, inputs: Inputs, readySoFar: bool, ok: bool, found: bool,
                           ghost before: map<Id, Child>, ghost g: State)
      returns (allServicesReady: bool, ghost t: State)
      requires i < |env.conductors| && left > 0 && Ahead(g, Push, i, inputs, env.iac, readySoFar)
      requires Reached(before, i, inputs)
      modifies `children
      ensures Reached(before, i + 1, inputs)
      ensures Ahead(t, Push, i + 1, inputs, env.iac, allServicesReady)
      ensures Iter(t, left - 1, ok, found) == Iter(g, left, ok, found)
    {
      IterOnce(g, left, ok, found);
      assert env.conductors[..i + 1] == env.conductors[..i] + [env.conductors[i]];
      allServicesReady := DeployChild(env.conductors[i], inputs, ok, g, i, readySoFar);
      t := GoParent(g, ok);
    }

    /** The conductors get the current names, in order: the first n of them,
        when the n-th call is the last to succeed. */
    method DeployConductors(left: nat, inputs: Inputs, ok: bool, found: bool, ghost g: State)
      returns (rest: nat, go: bool, allServicesReady: bool, ghost t: State, ghost n: nat)
      requires Ahead(g, Push, 0, inputs, env.iac, true)
      modifies `children
      ensures go ==> Ahead(t, Push, |env.conductors|, inputs, env.iac, allServicesReady)
      ensures Iter(t, rest, ok, found) == Iter(g, left, ok, found) && Mirrors(t)
      ensures rest == left - n
      ensures n == if left < |env.conductors| then left else |env.conductors|
      ensures go <==> left >= |env.conductors|
      ensures forall c :: c in env.conductors[..n] ==> OnNames(children, c, inputs)
      ensures forall c :: c !in env.conductors[..n] ==> Untouched(old(children), children, c)
    {
      rest, go, allServicesReady, t, n := left, true, true, g, 0;
      ghost var before := children;
      for i := 0 to |env.conductors|
        invariant n == i && rest == left - i && go
        invariant Iter(t, rest, ok, found) == Iter(g, left, ok, found)
        invariant Ahead(t, Push, i, inputs, env.iac, allServicesReady)
        invariant Reached(before, i, inputs)
      {
        if rest == 0 { go := false; return; }
        allServicesReady, t := DeployConductor(i, rest, inputs, allServicesReady, ok, found, before, t);
        rest, n := rest - 1, n + 1;
      }
    }

    method DeployAPI(left: nat, inputs: Inputs, readySoFar: bool, ok: bool, found: bool, ghost g: State)
      returns (rest: nat, allServicesReady: bool, ghost t: State)
      requires Ahead(g, Push, |env.conductors|, inputs, env.iac, readySoFar) && left > 0
      modifies `children
      ensures Ahead(t, Push, |Ids(env)|, inputs, env.iac, allServicesReady)
      ensures Iter(t, rest, ok, found) == Iter(g, left, ok, found)
      ensures OnNames(children, API, inputs) && children == old(children)[API := children[API]]
    {
      IterOnce(g, left, ok, found);
      allServicesReady := DeployChild(API, inputs, ok, g, |env.conductors|, readySoFar);
      rest, t := left - 1, GoParent(g, ok);
    }

    /** Every conductor and then the API get the current names: when the API is
        touched, every conductor has them. */
    method DeployServices(left: nat, inputs: Inputs, ok: bool, found: bool, ghost g: State)
      returns (rest: nat, go: bool, allServicesReady: bool, ghost t: State)
      requires Ahead(g, Push, 0, inputs, env.iac, true)
      modifies `children
      ensures go ==> Ahead(t, Push, |Ids(env)|, inputs, env.iac, allServicesReady)
      ensures Iter(t, rest, ok, found) == Iter(g, left, ok, found) && Mirrors(t)
      ensures !go ==> rest == 0
      ensures go <==> left > |env.conductors|
      ensures go ==> forall c :: c in env.conductors || c == API ==> OnNames(children, c, inputs)
      ensures !go && API !in env.conductors ==> Untouched(old(children), children, API)
    {
      ghost var n;
      rest, go, allServicesReady, t, n := DeployConductors(left, inputs, ok, found, g);
      assert env.conductors[..|env.conductors|] == env.conductors;
      if !go || rest == 0 { go := false; return; }
      rest, allServicesReady, t := DeployAPI(rest, inputs, allServicesReady, ok, found, t);
    }

    method FinalizeCredential(inputs: Inputs, allServicesReady: bool, ok: bool, ghost g: State)
      requires Ahead(g, FinAC, |Ids(env)|, inputs, env.iac, allServicesReady)
      modifies `heldAC, `applicationCredentialSecret
      ensures Ahead(GoParent(g, ok), FinInspectorAC, |Ids(env)|, inputs, env.iac, allServicesReady)
    {
      var rotated := FinalizeRotation(heldAC, status.ac, inputs.ac, allServicesReady);
      heldAC, applicationCredentialSecret := rotated.held, rotated.tracked;
    }

    method FinalizeInspectorCredential(inputs: Inputs, allServicesReady: bool, ok: bool, ghost g: State)
      requires Ahead(g, FinInspectorAC, |Ids(env)|, inputs, env.iac, allServicesReady)
      modifies `heldIAC, `inspectorApplicationCredentialSecret
      ensures Ahead(GoParent(g, ok), FinTransport, |Ids(env)|, inputs, env.iac, allServicesReady)
    {
      var rotated := FinalizeRotation(heldIAC, status.iac, env.iac, allServicesReady);
      heldIAC, inspectorApplicationCredentialSecret := rotated.held, rotated.tracked;
    }

    method FinalizeTransport(inputs: Inputs, allServicesReady: bool, ok: bool, ghost g: State)
      requires Ahead(g, FinTransport, |Ids(env)|, inputs, env.iac, allServicesReady)
      modifies `held, `transportURLSecret
      ensures Ahead(GoParent(g, ok), FinNotif, |Ids(env)|, inputs, env.iac, allServicesReady)
    {
      var rotated := FinalizeRotation(held, status.transport, inputs.transport, allServicesReady);
      held, transportURLSecret := rotated.held, rotated.tracked;
    }

    method FinalizeNotifications(inputs: Inputs, allServicesReady: bool, ok: bool, ghost g: State)
      requires Ahead(g, FinNotif, |Ids(env)|, inputs, env.iac, allServicesReady)
      modifies `held, `notificationsURLSecret
      ensures Ahead(GoParent(g, ok), PruneTransport, |Ids(env)|, inputs, env.iac, allServicesReady)
    {
      var rotated := FinalizeRotation(held, status.notif, inputs.notif, allServicesReady);
      held, notificationsURLSecret := rotated.held, rotated.tracked;
    }

    method PruneTransports(inputs: Inputs, allServicesReady: bool, ok: bool, ghost g: State)
      requires Ahead(g, PruneTransport, |Ids(env)|, inputs, env.iac, allServicesReady)
      modifies `held
      ensures Ahead(GoParent(g, ok), PruneAC, |Ids(env)|, inputs, env.iac, allServicesReady)
    {
      held := Prune(held, {transportURLSecret, inputs.transport, notificationsURLSecret, inputs.notif});
    }

    method PruneCredentials(inputs: Inputs, allServicesReady: bool, ok: bool, ghost g: State)
      requires Ahead(g, PruneAC, |Ids(env)|, inputs, env.iac, allServicesReady)
      modifies `heldAC
      ensures Ahead(GoParent(g, ok), PruneInspectorAC, |Ids(env)|, inputs, env.iac, allServicesReady)
    {
      heldAC := Prune(heldAC, {applicationCredentialSecret, inputs.ac});
    }

    method PruneInspectorCredentials(inputs: Inputs, allServicesReady: bool, ok: bool, ghost g: State)
      requires Ahead(g, PruneInspectorAC, |Ids(env)|, inputs, env.iac, allServicesReady)
      modifies `heldIAC
      ensures Mirrors(GoParent(g, ok)) && !Enabled(GoParent(g, ok), Go(ok))
    {
      heldIAC := Prune(heldIAC, {inspectorApplicationCredentialSecret, env.iac});
    }

    /** The input secrets are held, then rendered; a changed config ends the reconcile. */
    method PrepareInputs(left: nat, ok: bool, found: bool, ghost g: State)
      returns (rest: nat, go: bool, inputs: Inputs, ghost t: State)
      requires Stands(g, ReadTransport, 0) && g.variant == AsWritten && g.run.value.ready && g.run.value.mem == g.status
      modifies `transportURLSecret, `notificationsURLSecret, `held, `cfg, `inputHash
      ensures go ==> Ahead(t, HoldAC, 0, inputs, env.iac, true)
      ensures Iter(t, rest, ok, found) == Iter(g, left, ok, found) && Mirrors(t)
      ensures !go ==> rest == 0 || !Enabled(t, Go(ok))
    {
      rest, go, inputs, t := left, false, Inputs("", "", ""), g;
      if rest == 0 { return; }
      IterOnce(t, rest, ok, found);
      var transport := ReadTransportURL(ok, t);
      rest, t := rest - 1, GoParent(t, ok);
      if transport == "" || rest == 0 { return; }
      IterOnce(t, rest, ok, found);
      ManageTransportFinalizer(transport, ok, t);
      rest, t := rest - 1, GoParent(t, ok);
      rest, go, inputs, t := PrepareNotifications(rest, transport, ok, found, t);
    }

    method PrepareNotifications(left: nat, transport: Name, ok: bool, found: bool, ghost g: State)
      returns (rest: nat, go: bool, inputs: Inputs, ghost t: State)
      requires Stands(g, ReadNotif, 0) && g.variant == AsWritten && g.run.value.ready
               && g.run.value.transport == Some(transport)
      modifies `notificationsURLSecret, `held, `cfg, `inputHash
      ensures go ==> Ahead(t, HoldAC, 0, inputs, env.iac, true)
      ensures Iter(t, rest, ok, found) == Iter(g, left, ok, found) && Mirrors(t)
      ensures !go ==> rest == 0 || !Enabled(t, Go(ok))
    {
      rest, go, inputs, t := left, false, Inputs("", "", ""), g;
      if rest == 0 { return; }
      var notif, failed := EnsureNotificationsTransportURL(ok, found, t);
      if failed {
        IterFails(t, rest, ok);
        rest, t := rest - 1, Next(t, NotifError);
        return;
      }
      IterOnce(t, rest, ok, found);
      rest, t := rest - 1, GoParent(t, ok);
      rest, go, inputs, t := PrepareConfig(rest, transport, notif, ok, found, t);
    }

    /** The notifications secret is held, and the config rendered. */
    method PrepareConfig(left: nat, transport: Name, notif: Name, ok: bool, found: bool, ghost g: State)
      returns (rest: nat, go: bool, inputs: Inputs, ghost t: State)
      requires Stands(g, HoldNotif, 0) && g.variant == AsWritten && g.run.value.ready
      requires g.run.value.transport == Some(transport) && g.run.value.notif == Some(notif)
      modifies `held, `cfg, `inputHash
      ensures go ==> Ahead(t, HoldAC, 0, inputs, env.iac, true)
      ensures Iter(t, rest, ok, found) == Iter(g, left, ok, found) && Mirrors(t)
      ensures !go ==> rest == 0 || !Enabled(t, Go(ok))
    {
      rest, go, inputs, t := left, false, Inputs("", "", ""), g;
      if rest == 0 { return; }
      IterOnce(t, rest, ok, found);
      ManageNotificationsFinalizer(notif, ok, t);
      rest, t := rest - 1, GoParent(t, ok);
      if rest == 0 { return; }
      IterOnce(t, rest, ok, found);
      var hashChanged := GenerateServiceConfig(transport, notif, ok, t);
      rest, t := rest - 1, GoParent(t, ok);
      if hashChanged { return; }
      go, inputs := true, Inputs(transport, notif, env.ac);
    }

    /** The credential secrets are held. */
    method HoldCredentials(left: nat, inputs: Inputs, ok: bool, found: bool, ghost g: State)
      returns (rest: nat, go: bool, ghost t: State)
      requires Ahead(g, HoldAC, 0, inputs, env.iac, true)
      modifies `heldAC, `heldIAC
      ensures go ==> Ahead(t, Push, 0, inputs, env.iac, true)
      ensures Iter(t, rest, ok, found) == Iter(g, left, ok, found) && Mirrors(t)
      ensures !go ==> rest == 0
    {
      rest, go, t := left, false, g;
      if rest == 0 { return; }
      IterOnce(t, rest, ok, found);
      ManageCredentialFinalizer(inputs, ok, t);
      rest, t := rest - 1, GoParent(t, ok);
      if rest == 0 { return; }
      IterOnce(t, rest, ok, found);
      ManageInspectorCredentialFinalizer(inputs, ok, t);
      rest, go, t := rest - 1, true, GoParent(t, ok);
    }

    /** Every service gets the names; the standalone ones have the last word. */
    method Deploy(left: nat, inputs: Inputs, ok: bool, found: bool, ghost g: State)
      returns (rest: nat, go: bool, allServicesReady: bool, ghost t: State)
      requires Ahead(g, Push, 0, inputs, env.iac, true)
      modifies `children
      ensures go ==> Ahead(t, FinAC, |Ids(env)|, inputs, env.iac, allServicesReady)
      ensures Iter(t, rest, ok, found) == Iter(g, left, ok, found) && Mirrors(t)
      ensures !go ==> rest == 0
    {
      rest, go, allServicesReady, t := DeployServices(left, inputs, ok, found, g);
      if !go || rest == 0 { go := false; return; }
      IterOnce(t, rest, ok, found);
      allServicesReady := CheckStandaloneServices(inputs, allServicesReady, ok, t);
      rest, t := rest - 1, GoParent(t, ok);
    }

    /** The credential rotations end when every service is ready. */
    method FinalizeCredentials(left: nat, inputs: Inputs, allServicesReady: bool, ok: bool, found: bool, ghost g: State)
      returns (rest: nat, go: bool, ghost t: State)
      requires Ahead(g, FinAC, |Ids(env)|, inputs, env.iac, allServicesReady)
      modifies `heldAC, `heldIAC, `applicationCredentialSecret, `inspectorApplicationCredentialSecret
      ensures go ==> Ahead(t, FinTransport, |Ids(env)|, inputs, env.iac, allServicesReady)
      ensures Iter(t, rest, ok, found) == Iter(g, left, ok, found) && Mirrors(t)
      ensures !go ==> rest == 0
    {
      rest, go, t := left, false, g;
      if rest == 0 { return; }
      IterOnce(t, rest, ok, found);
      FinalizeCredential(inputs, allServicesReady, ok, t);
      rest, t := rest - 1, GoParent(t, ok);
      if rest == 0 { return; }
      IterOnce(t, rest, ok, found);
      FinalizeInspectorCredential(inputs, allServicesReady, ok, t);
      rest, t, go := rest - 1, GoParent(t, ok), true;
    }

    /** So do the transport and notifications rotations. */
    method FinalizeTransports(left: nat, inputs: Inputs, allServicesReady: bool, ok: bool, found: bool, ghost g: State)
      returns (rest: nat, go: bool, ghost t: State)
      requires Ahead(g, FinTransport, |Ids(env)|, inputs, env.iac, allServicesReady)
      modifies `held, `transportURLSecret, `notificationsURLSecret
      ensures go ==> Ahead(t, PruneTransport, |Ids(env)|, inputs, env.iac, allServicesReady)
      ensures Iter(t, rest, ok, found) == Iter(g, left, ok, found) && Mirrors(t)
      ensures !go ==> rest == 0
    {
      rest, go, t := left, false, g;
      if rest == 0 { return; }
      IterOnce(t, rest, ok, found);
      FinalizeTransport(inputs, allServicesReady, ok, t);
      rest, t := rest - 1, GoParent(t, ok);
      if rest == 0 { return; }
      IterOnce(t, rest, ok, found);
      FinalizeNotifications(inputs, allServicesReady, ok, t);
      rest, t, go := rest - 1, GoParent(t, ok), true;
    }

    /** Finalizers left on stray secrets are taken off. */
    method PruneStrays(left: nat, inputs: Inputs, allServicesReady: bool, ok: bool, found: bool, ghost g: State)
      returns (ghost rest: nat, ghost t: State)
      requires Ahead(g, PruneTransport, |Ids(env)|, inputs, env.iac, allServicesReady)
      modifies `held, `heldAC, `heldIAC
      ensures Iter(t, rest, ok, found) == Iter(g, left, ok, found) && Mirrors(t)
      ensures rest == 0 || !Enabled(t, Go(ok))
    {
      rest, t := left, g;
      if left == 0 { return; }
      IterOnce(t, rest, ok, found);
      PruneTransports(inputs, allServicesReady, ok, t);
      rest, t := rest - 1, GoParent(t, ok);
      if left == 1 { return; }
      IterOnce(t, rest, ok, found);
      PruneCredentials(inputs, allServicesReady, ok, t);
      rest, t := rest - 1, GoParent(t, ok);
      if left == 2 { return; }
      IterOnce(t, rest, ok, found);
      PruneInspectorCredentials(inputs, allServicesReady, ok, t);
      rest, t := rest - 1, GoParent(t, ok);
    }

    /** The reconcile up to its first failing call: calls of them succeed. */
    method ReconcileNormal(calls: nat, ok: bool, found: bool, ghost g: State)
      requires Stands(g, ReadTransport, 0) && g.variant == AsWritten && g.run.value.ready && g.run.value.mem == g.status
      modifies `held, `heldAC, `heldIAC, `cfg, `children
      modifies `transportURLSecret, `notificationsURLSecret, `applicationCredentialSecret,
               `inspectorApplicationCredentialSecret, `inputHash
      ensures Mirrors(Iter(g, calls, ok, found))
    {
      var left, go, inputs;
      ghost var t;
      left, go, inputs, t := PrepareInputs(calls, ok, found, g);
      if !go { return; }
      left, go, t := HoldCredentials(left, inputs, ok, found, t);
      if !go { return; }
      var allServicesReady;
      left, go, allServicesReady, t := Deploy(left, inputs, ok, found, t);
      if !go { return; }
      left, go, t := FinalizeCredentials(left, inputs, allServicesReady, ok, found, t);
      if !go { return; }
      left, go, t := FinalizeTransports(left, inputs, allServicesReady, ok, found, t);
      if !go { return; }
      ghost var rest;
      rest, t := PruneStrays(left, inputs, allServicesReady, ok, found, t);
    }

    method ReadInstance() returns (ghost g: State)
      modifies `transportURLSecret, `notificationsURLSecret, `applicationCredentialSecret,
               `inspectorApplicationCredentialSecret, `inputHash
      ensures g == Next(Stored(), Begin) && Stored() == old(Stored())
      ensures Stands(g, ReadTransport, 0) && g.variant == AsWritten && g.run.value.ready && g.run.value.mem == g.status
    {
      transportURLSecret, notificationsURLSecret := status.transport, status.notif;
      applicationCredentialSecret, inspectorApplicationCredentialSecret := status.ac, status.iac;
      inputHash := status.hash;
      g := Next(Stored(), Begin);
    }

    method PatchStatus(patched: bool, ghost t: State)
      requires Mirrors(t)
      modifies `status
      ensures Stored() == Next(t, End(patched))
    {
      if patched {
        status := Status(transportURLSecret, notificationsURLSecret, applicationCredentialSecret,
                         inspectorApplicationCredentialSecret, inputHash);
      }
    }

    /** A reconcile: whatever the in-memory status holds at the end is patched
        into the stored one, unless that fails too. */
    method Reconcile(calls: nat, ok: bool, found: bool, patched: bool)
      modifies this
      ensures Stored() == Reconciled(old(Stored()), calls, ok, found, patched)
    {
      ghost var g := ReadInstance();
      ReconcileNormal(calls, ok, found, g);
      PatchStatus(patched, Iter(g, calls, ok, found));
    }

    /** Deletes the CR: listed credentials, listed transports, then whatever
        still carries a finalizer; calls of the API calls succeed.  The own
        finalizer goes last, so it is only ever removed when no secret in the
        namespace holds any consumer finalizer, whatever state the rotations
        and earlier attempts left. */
    method ReconcileDelete(calls: nat)
      requires ownFinalizer
      modifies `heldAC, `heldIAC, `held, `ownFinalizer
      ensures !ownFinalizer <==> calls >= 11
      ensures !ownFinalizer ==> held == {} && heldAC == {} && heldIAC == {}
      ensures heldAC == if calls >= 10 then {} else Deletion.Without(old(heldAC), [status.ac, env.ac], calls)
      ensures heldIAC == if calls >= 11 then {} else Deletion.Without(old(heldIAC), [status.iac, env.iac], calls - 2)
      ensures calls >= 9 ==> held == {}
      ensures calls < 9 ==>
                held == old(held)
                - Real((if calls >= 5 then {status.transport} else {}) + (if calls >= 6 then {env.transport} else {})
                       + (if calls >= 7 then {env.notif} else {}) + (if calls >= 8 then {status.notif} else {}))
    {
      var rest, done;
      heldAC, rest, done := Deletion.RemoveEach(heldAC, [status.ac, env.ac], calls);
      if !done { return; }
      heldIAC, rest, done := Deletion.RemoveEach(heldIAC, [status.iac, env.iac], rest);
      if !done { return; }
      ghost var names := [status.transport, env.transport, env.notif, status.notif];
      assert names[0] == status.transport && names[1] == env.transport;
      assert names[2] == env.notif && names[3] == status.notif;
      held, rest, done := Deletion.RemoveEach(held, [status.transport, env.transport, env.notif, status.notif], rest);
      if !done || rest == 0 { return; }
      held := Prune(held, {});
      if rest == 1 { return; }
      heldAC := Prune(heldAC, {});
      if rest == 2 { return; }
      heldIAC := Prune(heldIAC, {});
      ownFinalizer := false;
    }
  }
}
