/** Rotation in the controllers that own their workload and ask for their own
    transport: IronicNeutronAgent and IronicInspector.  No parent is involved.

    A step is one call to the Kubernetes API; a reconcile may stop after any of
    them, and the in-memory status is then patched, or the patch fails. */
module SelfRotation {
  import opened Secrets
  import opened Wrappers

  datatype Kind = Agent | Inspector

  /** The rendered config secret; its hash is the input hash. */
  datatype Config = Config(transport: Name, notif: Name, other: nat)

  /** A pod template: the config it was computed for, and the transport secret
      its init containers name (only the inspector's name one). */
  datatype Pod = Pod(config: Config, named: Name)

  datatype Status = Status(transport: Name, notif: Name, hash: Option<Config>)

  datatype Pc =
    | ReadTransport | HoldTransport | ReadNotif | HoldNotif | Render | Apply | Observe
    | FinTransport | FinNotif | PruneStrays | Finished

  function Idx(pc: Pc): nat {
    match pc
    case ReadTransport => 0 case HoldTransport => 1 case ReadNotif => 2 case HoldNotif => 3 case Render => 4
    case Apply => 5 case Observe => 6 case FinTransport => 7 case FinNotif => 8 case PruneStrays => 9
    case Finished => 10
  }

  datatype Run = Run(pc: Pc, stopped: bool, mem: Status, transport: Name, notif: Name, config: Config, ready: bool)

  datatype State = State(
    kind: Kind,
    live: Name, liveNotif: Name, other: nat,   // what the controller reads
    status: Status,                            // persisted
    held: set<Name>,                           // carry this controller's transport consumer finalizer
    cfg: Config,
    tmpl: Option<Pod>, pods: set<Pod>,
    run: Option<Run>,
    everTransport: set<Name>, everNotif: set<Name>)

  datatype Step =
    | RotateTransport(name: Name)
    | SetNotif(name: Name)
    | SetOther(other: nat)
    | Begin
    | Go(ok: bool, observed: bool)
    | NotifError
    | End(patched: bool)
    | Rollout(pods: set<Pod>)

  predicate Enabled(s: State, st: Step) {
    match st
    case RotateTransport(name) => name != ""
    case SetNotif(_) => true
    case SetOther(_) => true
    case Begin => s.run.None?
    case Go(_, _) => s.run.Some? && !s.run.value.stopped && s.run.value.pc != Finished
    case NotifError => s.run.Some? && !s.run.value.stopped && s.run.value.pc == ReadNotif
    case End(_) => s.run.Some?
    case Rollout(pods) => s.tmpl.Some? && pods <= s.pods + {s.tmpl.value}
  }

  /** The workload is ready for input c: every pod runs a template computed for it. */
  predicate AllFor(pods: set<Pod>, c: Config) {
    forall p :: p in pods ==> p.config == c
  }

  /** What the status tracks while a rotation may be under way. */
  function Tracked(tracked: Name, current: Name): Name {
    if tracked == "" || tracked == current then current else tracked
  }

  function Template(s: State, r: Run): Pod {
    Pod(r.config, if s.kind == Inspector then r.mem.transport else "")
  }

  function GoRun(s: State, ok: bool, observed: bool): State
    requires Enabled(s, Go(ok, observed))
  {
    var r := s.run.value;
    match r.pc
    case ReadTransport =>
      if s.live == "" then s.(run := Some(r.(stopped := true)))
      else s.(run := Some(r.(pc := HoldTransport, transport := s.live)))
    case HoldTransport =>
      s.(held := Manage(s.held, r.transport),
         run := Some(r.(pc := ReadNotif, mem := r.mem.(transport := Tracked(r.mem.transport, r.transport)))))
    case ReadNotif =>
      s.(run := Some(r.(pc := HoldNotif, notif := s.liveNotif, mem := r.mem.(notif := s.liveNotif))))
    case HoldNotif =>
      s.(held := if r.notif == "" then s.held else Manage(s.held, r.notif), run := Some(r.(pc := Render)))
    case Render =>
      var cfg := Config(r.transport, r.notif, s.other);
      s.(cfg := cfg, run := Some(if r.mem.hash == Some(cfg) then r.(pc := Apply, config := cfg)
                                 else r.(stopped := true, mem := r.mem.(hash := Some(cfg)))))
    case Apply =>
      s.(tmpl := Some(Template(s, r)), run := Some(r.(pc := Observe)))
    case Observe =>
      var ready := observed && ok && AllFor(s.pods, r.config);
      if s.kind == Inspector && observed && !ready then s.(run := Some(r.(stopped := true)))
      else s.(run := Some(r.(pc := FinTransport, ready := ready)))
    case FinTransport =>
      var rot := FinalizeRotation(s.held, r.mem.transport, r.transport, r.ready);
      s.(held := rot.held, run := Some(r.(pc := FinNotif, mem := r.mem.(transport := rot.tracked))))
    case FinNotif =>
      var rot := FinalizeRotation(s.held, s.status.notif, r.notif, r.ready);
      s.(held := rot.held, run := Some(r.(pc := PruneStrays, mem := r.mem.(notif := rot.tracked))))
    case PruneStrays =>
      s.(held := Prune(s.held, {r.mem.transport, r.transport, r.mem.notif, r.notif}), run := Some(r.(pc := Finished)))
    case Finished => s
  }

  function Next(s: State, st: Step): State
    requires Enabled(s, st)
  {
    match st
    case RotateTransport(name) => s.(live := name, everTransport := s.everTransport + {name})
    case SetNotif(name) => s.(liveNotif := name, everNotif := s.everNotif + Real({name}))
    case SetOther(other) => s.(other := other)
    case Begin => s.(run := Some(Run(ReadTransport, false, s.status, "", "", s.cfg, false)))
    case Go(ok, observed) => GoRun(s, ok, observed)
    case NotifError => s.(run := Some(s.run.value.(stopped := true, mem := s.run.value.mem.(notif := ""))))
    case End(patched) => s.(status := if patched then s.run.value.mem else s.status, run := None)
    case Rollout(pods) => s.(pods := pods)
  }

  ghost predicate Init(s: State) {
    && s.live == s.liveNotif == "" && s.status == Status("", "", None)
    && s.held == s.everTransport == s.everNotif == {} && s.cfg == Config("", "", 0)
    && s.tmpl == None && s.pods == {} && s.run == None
  }

  ghost predicate IsRun(s: State, steps: seq<Step>)
    decreases |steps|
  {
    steps == [] || (Enabled(s, steps[0]) && IsRun(Next(s, steps[0]), steps[1..]))
  }

  ghost function After(s: State, steps: seq<Step>): State
    requires IsRun(s, steps)
    decreases |steps|
  {
    if steps == [] then s else After(Next(s, steps[0]), steps[1..])
  }

  // ---------------------------------------------------------------------
  // What every step keeps, whatever happened before

  predicate TransportName(s: State, n: Name) { n == "" || n in s.everTransport }
  predicate NotifName(s: State, n: Name) { n == "" || n in s.everNotif }

  ghost predicate WfRun(s: State, r: Run) {
    && TransportName(s, r.mem.transport) && TransportName(s, r.transport)
    && NotifName(s, r.mem.notif) && NotifName(s, r.notif)
    && (Idx(r.pc) > 0 ==> r.transport != "")
    && (Idx(r.pc) > 1 ==> r.transport in s.held)
    && (Idx(r.pc) <= 1 ==> r.mem.transport == s.status.transport)
    && (1 < Idx(r.pc) <= 7 ==> r.mem.transport == Tracked(s.status.transport, r.transport))
    && (7 < Idx(r.pc) ==> r.mem.transport == r.transport || (r.mem.transport == s.status.transport && !r.ready))
    && (7 < Idx(r.pc) && r.mem.transport != s.status.transport && s.status.transport != ""
        ==> r.ready && s.status.transport !in s.held)
    && (Idx(r.pc) > 4 ==> r.config == s.cfg && r.config.transport == r.transport)
    && (Idx(r.pc) > 5 ==> s.tmpl.Some? && s.tmpl.value.config == r.config)
    && (r.ready ==> Idx(r.pc) > 6 && AllFor(s.pods, r.config))
  }

  ghost predicate Wf(s: State) {
    && "" !in s.held
    && TransportName(s, s.live) && TransportName(s, s.status.transport)
    && NotifName(s, s.liveNotif) && NotifName(s, s.status.notif)
    && (s.run.Some? ==> WfRun(s, s.run.value))
  }

  /** No secret ever serves both as a transport and as a notifications secret. */
  ghost predicate Apart(s: State) { forall n :: n in s.everTransport ==> n !in s.everNotif }

  lemma BegunKeepsWf(s: State, ok: bool, observed: bool)
    requires Wf(s) && Enabled(s, Go(ok, observed)) && Idx(s.run.value.pc) <= 1
    ensures Wf(GoRun(s, ok, observed))
  {
  }

  lemma ReadNotifKeepsWf(s: State, ok: bool, observed: bool)
    requires Wf(s) && Enabled(s, Go(ok, observed)) && s.run.value.pc == ReadNotif
    ensures Wf(GoRun(s, ok, observed))
  {
  }

  lemma HoldNotifKeepsWf(s: State, ok: bool, observed: bool)
    requires Wf(s) && Enabled(s, Go(ok, observed)) && s.run.value.pc == HoldNotif
    ensures Wf(GoRun(s, ok, observed))
  {
  }

  lemma RenderKeepsWf(s: State, ok: bool, observed: bool)
    requires Wf(s) && Enabled(s, Go(ok, observed)) && s.run.value.pc == Render
    ensures Wf(GoRun(s, ok, observed))
  {
  }

  lemma ApplyKeepsWf(s: State, ok: bool, observed: bool)
    requires Wf(s) && Enabled(s, Go(ok, observed)) && s.run.value.pc == Apply
    ensures Wf(GoRun(s, ok, observed))
  {
  }

  lemma ObserveKeepsWf(s: State, ok: bool, observed: bool)
    requires Wf(s) && Enabled(s, Go(ok, observed)) && s.run.value.pc == Observe
    ensures Wf(GoRun(s, ok, observed))
  {
  }

  lemma FinTransportKeepsWf(s: State, ok: bool, observed: bool)
    requires Wf(s) && Enabled(s, Go(ok, observed)) && s.run.value.pc == FinTransport
    ensures Wf(GoRun(s, ok, observed))
  {
  }

  lemma FinNotifKeepsWf(s: State, ok: bool, observed: bool)
    requires Wf(s) && Apart(s) && Enabled(s, Go(ok, observed)) && s.run.value.pc == FinNotif
    ensures Wf(GoRun(s, ok, observed))
  {
  }

  lemma PruneStraysKeepsWf(s: State, ok: bool, observed: bool)
    requires Wf(s) && Apart(s) && Enabled(s, Go(ok, observed)) && s.run.value.pc == PruneStrays
    ensures Wf(GoRun(s, ok, observed))
  {
  }

  lemma StepKeepsWf(s: State, st: Step)
    requires Wf(s) && Apart(s) && Enabled(s, st)
    ensures Wf(Next(s, st))
  {
    if st.Go? {
      match s.run.value.pc
      case ReadTransport => BegunKeepsWf(s, st.ok, st.observed);
      case HoldTransport => BegunKeepsWf(s, st.ok, st.observed);
      case ReadNotif => ReadNotifKeepsWf(s, st.ok, st.observed);
      case HoldNotif => HoldNotifKeepsWf(s, st.ok, st.observed);
      case Render => RenderKeepsWf(s, st.ok, st.observed);
      case Apply => ApplyKeepsWf(s, st.ok, st.observed);
      case Observe => ObserveKeepsWf(s, st.ok, st.observed);
      case FinTransport => FinTransportKeepsWf(s, st.ok, st.observed);
      case FinNotif => FinNotifKeepsWf(s, st.ok, st.observed);
      case PruneStrays => PruneStraysKeepsWf(s, st.ok, st.observed);
      case Finished =>
    }
  }

  lemma NamesOnlyGrow(s: State, st: Step)
    requires Enabled(s, st)
    ensures s.everTransport <= Next(s, st).everTransport && s.everNotif <= Next(s, st).everNotif
  {
  }

  lemma {:induction false} RunNamesGrow(s: State, steps: seq<Step>)
    requires IsRun(s, steps)
    ensures s.everTransport <= After(s, steps).everTransport && s.everNotif <= After(s, steps).everNotif
    ensures Apart(After(s, steps)) ==> Apart(s)
    decreases |steps|
  {
    if steps != [] {
      NamesOnlyGrow(s, steps[0]);
      RunNamesGrow(Next(s, steps[0]), steps[1..]);
    }
  }

  lemma {:induction false} RunKeepsWf(s: State, steps: seq<Step>)
    requires Wf(s) && IsRun(s, steps) && Apart(After(s, steps))
    ensures Wf(After(s, steps))
    decreases |steps|
  {
    if steps != [] {
      RunNamesGrow(s, steps);
      StepKeepsWf(s, steps[0]);
      RunKeepsWf(Next(s, steps[0]), steps[1..]);
    }
  }

  /** A state that some history leads to. */
  ghost predicate Reachable(s: State) {
    exists s0, steps :: Init(s0) && IsRun(s0, steps) && After(s0, steps) == s
  }

  lemma ReachableWf(s: State)
    requires Reachable(s) && Apart(s)
    ensures Wf(s)
  {
    var s0, steps :| Init(s0) && IsRun(s0, steps) && After(s0, steps) == s;
    RunKeepsWf(s0, steps);
  }

  // ---------------------------------------------------------------------
  // The finalizer comes first

  /** The transport secrets that the status, in memory or persisted, the config
      and the template name anew by the step are held after it. */
  ghost predicate HoldsNewNames(s: State, t: State) {
    && (t.status.transport != s.status.transport ==> t.status.transport in t.held)
    && (t.cfg.transport != s.cfg.transport ==> t.cfg.transport in t.held)
    && (t.tmpl != s.tmpl ==> t.tmpl.Some? && t.tmpl.value.config.transport in t.held)
    && (s.run.Some? && t.run.Some? && t.run.value.mem.transport != s.run.value.mem.transport
        ==> t.run.value.mem.transport in t.held)
  }

  lemma EarlyGoHoldsNewNames(s: State, ok: bool, observed: bool)
    requires Wf(s) && Enabled(s, Go(ok, observed)) && Idx(s.run.value.pc) <= 4
    ensures HoldsNewNames(s, GoRun(s, ok, observed))
  {
  }

  lemma LateGoHoldsNewNames(s: State, ok: bool, observed: bool)
    requires Wf(s) && Enabled(s, Go(ok, observed)) && Idx(s.run.value.pc) > 4
    ensures HoldsNewNames(s, GoRun(s, ok, observed))
  {
  }

  lemma EndHoldsNewNames(s: State, patched: bool)
    requires Wf(s) && Enabled(s, End(patched))
    ensures HoldsNewNames(s, Next(s, End(patched)))
  {
  }

  /** In every reachable state, whatever rotations went before: a step that
      makes the status, in memory or persisted, the config or the template name
      another transport secret leaves that secret with the finalizer. */
  lemma HeldBeforeNamed(s: State, st: Step)
    requires Reachable(s) && Apart(s) && Enabled(s, st)
    ensures HoldsNewNames(s, Next(s, st))
  {
    ReachableWf(s);
    match st
    case Go(ok, observed) =>
      if Idx(s.run.value.pc) <= 4 {
        EarlyGoHoldsNewNames(s, ok, observed);
      } else {
        LateGoHoldsNewNames(s, ok, observed);
      }
    case End(patched) => EndHoldsNewNames(s, patched);
    case _ =>
  }

  // ---------------------------------------------------------------------
  // The old secret goes last

  /** In every reachable state, whatever rotations went before: the transport
      secret that the persisted status tracks loses its finalizer only in the
      finalization of a reconcile that found the workload ready, and then the
      config, the template and every pod are for another secret. */
  lemma ReleasedOnlyWhenReady(s: State, st: Step)
    requires Reachable(s) && Apart(s) && Enabled(s, st)
    requires s.status.transport in s.held && s.status.transport != ""
    requires s.status.transport !in Next(s, st).held
    ensures st.Go? && s.run.value.pc == FinTransport && s.run.value.ready
    ensures var r := s.run.value;
            && r.transport != s.status.transport && r.transport in Next(s, st).held
            && s.cfg.transport == r.transport && s.tmpl.Some? && s.tmpl.value.config == s.cfg && AllFor(s.pods, s.cfg)
  {
    ReachableWf(s);
  }
}
