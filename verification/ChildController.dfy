/** The reconcile of an IronicAPI or IronicConductor on its own fields: the
    expected hash is read with the spec, the workload gets its template, and the
    applied hash follows only when every pod runs it. */
module ChildController {
  import opened Secrets
  import opened Wrappers
  import opened Rotation
  import Passes

  /** What a reconcile makes of the child when its first calls (rendering,
      applying, observing) succeed: the template is for the spec that was read,
      and the expected hash is copied only after a rollout of that template. */
  function Reconciled(child: Child, cfg: Config, other: nat, calls: nat, ok: bool, patched: bool): Child {
    var snap := SnapshotOf(child.spec, cfg, other);
    var same := child.hash == Some(snap);
    var ready := calls >= 3 && same && ok && child.pods <= {snap};
    child.(
      tmpl := if calls >= 2 && same then Some(snap) else child.tmpl,
      rolled := if ready then child.rolled + {Rolled(child.ann, snap)} else child.rolled,
      obs := if patched then child.gen else child.obs,
      hash := if patched && calls >= 1 then Some(snap) else child.hash,
      applied := if patched && ready then Some(child.ann) else child.applied)
  }

  // ---------------------------------------------------------------------
  // It is a run of the protocol

  function Begun(child: Child): Child {
    child.(run := Some(ChildRun(child.spec, child.ann, child.gen, Phase.Begun, None, child.hash, false)))
  }

  lemma Steps(s: State, c: Id, a: Child, st: Step, b: Child)
    requires c in s.children && Passes.Reaches(s, With(s, c, a))
    requires IsChildStep(st) && st.c == c && Enabled(With(s, c, a), st) && ChildAfter(With(s, c, a), a, st) == b
    ensures Passes.Reaches(s, With(s, c, b))
  {
    Passes.ReachesNext(s, With(s, c, a), st);
    Passes.WithTwice(s, c, a, b);
  }

  lemma BeginReaches(s: State, c: Id)
    requires c in s.children && s.children[c].run.None?
    ensures Passes.Reaches(s, With(s, c, Begun(s.children[c])))
  {
    Passes.ReachesOne(s, ChildBegin(c));
  }

  /** The child after it rendered its input, whose hash had not changed. */
  function Kept(s: State, child: Child): Child {
    var snap := SnapshotOf(child.spec, s.cfg, s.env.other);
    child.(run := Some(ChildRun(child.spec, child.ann, child.gen, Rendered, Some(snap), child.hash, false)))
  }

  lemma RenderReaches(s: State, c: Id)
    requires c in s.children && s.children[c].run.None?
    ensures var child := s.children[c]; var snap := SnapshotOf(child.spec, s.cfg, s.env.other); var a := Begun(child);
            Passes.Reaches(s, With(s, c, if child.hash == Some(snap) then Kept(s, child)
                                   else a.(run := Some(a.run.value.(phase := Halted, hash := Some(snap))))))
  {
    BeginReaches(s, c);
    var child := s.children[c];
    var snap := SnapshotOf(child.spec, s.cfg, s.env.other);
    var a := Begun(child);
    var b := if child.hash == Some(snap) then Kept(s, child)
             else a.(run := Some(a.run.value.(phase := Halted, hash := Some(snap))));
    Steps(s, c, a, ChildRender(c), b);
  }

  lemma ApplyReaches(s: State, c: Id)
    requires c in s.children && s.children[c].run.None?
    requires s.children[c].hash == Some(SnapshotOf(s.children[c].spec, s.cfg, s.env.other))
    ensures var a := Kept(s, s.children[c]);
            Passes.Reaches(s, With(s, c, a.(tmpl := a.run.value.snap, run := Some(a.run.value.(phase := Applied)))))
  {
    RenderReaches(s, c);
    var a := Kept(s, s.children[c]);
    Steps(s, c, a, ChildApply(c), a.(tmpl := a.run.value.snap, run := Some(a.run.value.(phase := Applied))));
  }

  lemma ObserveReaches(s: State, c: Id, ok: bool)
    requires c in s.children && s.children[c].run.None?
    requires s.children[c].hash == Some(SnapshotOf(s.children[c].spec, s.cfg, s.env.other))
    ensures var child := s.children[c];
            var a := Kept(s, child);
            var snap := a.run.value.snap;
            var ready := ok && child.pods <= {snap.value};
            Passes.Reaches(s, With(s, c, a.(tmpl := snap, run := Some(a.run.value.(phase := Observed, ready := ready)),
                                            rolled := if ready then child.rolled + {Rolled(child.ann, snap.value)}
                                                      else child.rolled)))
  {
    ApplyReaches(s, c);
    var child := s.children[c];
    var a := Kept(s, child);
    var snap := a.run.value.snap;
    var ready := ok && child.pods <= {snap.value};
    Steps(s, c, a.(tmpl := snap, run := Some(a.run.value.(phase := Applied))), ChildObserve(c, ok),
          a.(tmpl := snap, run := Some(a.run.value.(phase := Observed, ready := ready)),
             rolled := if ready then child.rolled + {Rolled(child.ann, snap.value)} else child.rolled));
  }

  /** Every reconcile of a child, wherever it stops, is a run of the protocol. */
  lemma ReconciledIsRun(s: State, c: Id, calls: nat, ok: bool, patched: bool)
    requires c in s.children && s.children[c].run.None?
    ensures Passes.Reaches(s, With(s, c, Reconciled(s.children[c], s.cfg, s.env.other, calls, ok, patched)))
  {
    var child := s.children[c];
    var snap := SnapshotOf(child.spec, s.cfg, s.env.other);
    var after := Reconciled(child, s.cfg, s.env.other, calls, ok, patched);
    var a := Begun(child);
    if calls == 0 {
      BeginReaches(s, c);
    } else if calls == 1 || child.hash != Some(snap) {
      RenderReaches(s, c);
      a := if child.hash == Some(snap) then Kept(s, child)
           else a.(run := Some(a.run.value.(phase := Halted, hash := Some(snap))));
    } else if calls == 2 {
      ApplyReaches(s, c);
      a := Kept(s, child);
      a := a.(tmpl := a.run.value.snap, run := Some(a.run.value.(phase := Applied)));
    } else {
      ObserveReaches(s, c, ok);
      var ready := ok && child.pods <= {snap};
      a := Kept(s, child);
      a := a.(tmpl := Some(snap), run := Some(a.run.value.(phase := Observed, ready := ready)),
              rolled := if ready then child.rolled + {Rolled(child.ann, snap)} else child.rolled);
    }
    Steps(s, c, a, ChildEnd(c, patched), after);
  }

  /** With its three calls succeeding, and the status patched, the reconcile of
      the controller is the pass that convergence is about. */
  lemma UndisturbedIsPass(s: State, c: Id, calls: nat)
    requires c in s.children && calls >= 3
    ensures Reconciled(s.children[c], s.cfg, s.env.other, calls, true, true) == Passes.PassedChild(s, s.children[c])
    ensures With(s, c, Reconciled(s.children[c], s.cfg, s.env.other, calls, true, true)) == Passes.ChildPass(s, c)
  {
  }

  /** It is a run of the protocol, too. */
  lemma ChildPassIsRun(s: State, c: Id)
    requires c in s.children && s.children[c].run.None?
    ensures Passes.Reaches(s, Passes.ChildPass(s, c))
  {
    ReconciledIsRun(s, c, 3, true, true);
    UndisturbedIsPass(s, c, 3);
  }

  /** What the child reports after a reconcile: the expected hash exactly when
      the reconcile got through, found its input unchanged, and every pod runs
      the template for it; the generation, whenever the patch succeeds. */
  lemma ReportsIff(child: Child, cfg: Config, other: nat, calls: nat, ok: bool, patched: bool)
    ensures var after := Reconciled(child, cfg, other, calls, ok, patched);
            var input := Snapshot(child.spec.transport, child.spec.ac, cfg, other);
            && after.applied == (if patched && calls >= 3 && child.hash == Some(input) && ok && child.pods <= {input}
                                 then Some(child.ann) else child.applied)
            && after.tmpl == (if calls >= 2 && child.hash == Some(input) then Some(input) else child.tmpl)
            && after.hash == (if patched && calls >= 1 then Some(input) else child.hash)
            && after.obs == (if patched then child.gen else child.obs)
            && after.spec == child.spec && after.ann == child.ann && after.gen == child.gen && after.pods == child.pods
  {
  }

  // ---------------------------------------------------------------------
  // The controller

  class Controller {
    // The CR
    var spec: Inputs
    var ann: Inputs
    var generation: nat
    // Its persisted status
    var observedGeneration: nat
    var hash: Option<Snapshot>
    var appliedInputSecretHash: Option<Inputs>
    // Its workload
    var tmpl: Option<Snapshot>
    var pods: set<Snapshot>
    ghost var rolled: set<Rolled>

    ghost function Stored(): Child
      reads this
    {
      Child(spec, ann, generation, observedGeneration, hash, appliedInputSecretHash, tmpl, pods, rolled, None)
    }

    /** The reconcile up to its first failing call.  It works on the CR as it
        was read and returns the in-memory status. */
    method ReconcileNormal(cfg: Config, other: nat, calls: nat, ok: bool)
      returns (newHash: Option<Snapshot>, newApplied: Option<Inputs>)
      modifies `tmpl, `rolled
      ensures var after := Reconciled(old(Stored()), cfg, other, calls, ok, true);
              tmpl == after.tmpl && rolled == after.rolled && newHash == after.hash && newApplied == after.applied
      ensures newHash == if calls == 0 then old(hash) else Some(Snapshot(spec.transport, spec.ac, cfg, other))
      ensures tmpl == if calls >= 2 && old(hash) == newHash then newHash else old(tmpl)
      ensures newApplied ==
                if calls >= 3 && old(hash) == newHash && ok && (forall p :: p in pods ==> Some(p) == newHash)
                then Some(old(ann)) else old(appliedInputSecretHash)
    {
      newHash, newApplied := hash, appliedInputSecretHash;
      var expectedInputSecretHash := ann;
      if calls == 0 { return; }
      var inputHash := SnapshotOf(spec, cfg, other);
      var hashChanged := hash != Some(inputHash);
      newHash := Some(inputHash);
      if hashChanged || calls == 1 { return; }
      tmpl := Some(inputHash);
      if calls == 2 { return; }
      if ok && pods <= {inputHash} {
        rolled := rolled + {Rolled(ann, inputHash)};
        newApplied := Some(expectedInputSecretHash);
      }
    }

    /** A reconcile: the in-memory status is patched on every way out, unless that fails too. */
    method Reconcile(cfg: Config, other: nat, calls: nat, ok: bool, patched: bool)
      modifies this
      ensures Stored() == Reconciled(old(Stored()), cfg, other, calls, ok, patched)
      ensures spec == old(spec) && ann == old(ann) && generation == old(generation) && pods == old(pods)
      ensures observedGeneration == if patched then generation else old(observedGeneration)
      ensures calls >= 3 && ok && patched && old(hash) == Some(Snapshot(spec.transport, spec.ac, cfg, other)) ==>
                && tmpl == hash == old(hash)
                && appliedInputSecretHash == if forall p :: p in pods ==> Some(p) == tmpl then Some(ann)
                                             else old(appliedInputSecretHash)
    {
      var newObserved := generation;
      var newHash, newApplied := ReconcileNormal(cfg, other, calls, ok);
      if patched {
        observedGeneration, hash, appliedInputSecretHash := newObserved, newHash, newApplied;
      }
    }
  }
}
