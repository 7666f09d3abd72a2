/** What "all services ready" in the parent is worth: every conductor and the
    API have rolled out the very names that the parent is handing out. */
module Handshake {
  import opened Secrets
  import opened Wrappers
  import opened Rotation

  /** The child once saw all its pods run a snapshot carrying exactly these names. */
  ghost predicate Completed(c: Child, i: Inputs) {
    exists r :: r in c.rolled && r.inputs == i && r.snap.transport == i.transport && r.snap.ac == i.ac
  }

  ghost predicate HonestChild(c: Child) {
    && WfChild(c)
    && (forall r :: r in c.rolled ==> r.snap.transport == r.inputs.transport && r.snap.ac == r.inputs.ac)
    && (c.applied.Some? ==> Completed(c, c.applied.value))
    && (c.run.Some? && c.run.value.ready ==> Rolled(c.run.value.ann, c.run.value.snap.value) in c.rolled)
    && c.obs <= c.gen
    && (c.run.Some? ==> c.run.value.gen <= c.gen)
  }

  ghost predicate Honest(s: State) {
    && Wf(s)
    && (forall c :: c in s.children ==> HonestChild(s.children[c]))
    && (s.run.Some? ==> HonestRun(s.children, s.run.value))
  }

  /** A parent that still counts every service as ready pushed only to children that completed the rollout. */
  ghost predicate HonestRun(children: map<Id, Child>, r: Run)
    requires WfLocals(r)
  {
    r.ready ==> forall i :: 0 <= i < r.next ==> r.ids[i] in children && Completed(children[r.ids[i]], CurrentInputs(r))
  }

  lemma ChildStaysHonest(s: State, before: Child, st: Step)
    requires IsChildStep(st) && Enabled(s, st) && before == s.children[st.c] && HonestChild(before)
    requires WfChild(ChildAfter(s, before, st))
    ensures var after := ChildAfter(s, before, st); HonestChild(after) && before.rolled <= after.rolled
  {
    var after := ChildAfter(s, before, st);
    if st.ChildEnd? && before.run.value.ready {
      var r := Rolled(before.run.value.ann, before.run.value.snap.value);
      assert r in after.rolled;
    }
  }

  lemma ChildKeepsHonest(s: State, st: Step)
    requires Honest(s) && Enabled(s, st) && IsChildStep(st)
    ensures Honest(Next(s, st))
  {
    StepKeepsWf(s, st);
    var after := ChildAfter(s, s.children[st.c], st);
    assert WfChild(Next(s, st).children[st.c]);
    ChildStaysHonest(s, s.children[st.c], st);
    StrongerChild(s, st.c, after);
  }

  lemma StrongerChild(s: State, c: Id, after: Child)
    requires Honest(s) && HonestChild(after) && Wf(With(s, c, after))
    requires c in s.children ==> s.children[c].rolled <= after.rolled
    ensures Honest(With(s, c, after))
  {
  }

  lemma PushedIsHonest(s: State, c: Id, i: Inputs)
    requires c in s.children ==> HonestChild(s.children[c])
    ensures HonestChild(PushedChild(s.children, c, i))
  {
  }

  lemma MoreCompleted(children: map<Id, Child>, r: Run, child: Child)
    requires WfLocals(r) && r.pc == Push && r.next < |r.ids| && HonestRun(children, r)
    requires r.ids[r.next] in children ==> children[r.ids[r.next]].rolled <= child.rolled
    requires child.applied == Some(CurrentInputs(r)) ==> Completed(child, CurrentInputs(r))
    ensures HonestRun(children[r.ids[r.next] := child],
                      r.(next := r.next + 1, ready := r.ready && ChildReady(child, CurrentInputs(r))))
  {
  }

  lemma PushedRunIsHonest(s: State, ok: bool)
    requires Honest(s) && Enabled(s, Go(ok)) && s.run.value.pc == Push && s.run.value.next < |s.run.value.ids|
    ensures var t := GoParent(s, ok); t.run.Some? && WfLocals(t.run.value) && HonestRun(t.children, t.run.value)
  {
    var r := s.run.value;
    var c, i := r.ids[r.next], CurrentInputs(r);
    PushedIsHonest(s, c, i);
    MoreCompleted(s.children, r, PushedChild(s.children, c, i));
  }

  lemma PushOneKeepsHonest(s: State, ok: bool)
    requires Honest(s) && Enabled(s, Go(ok)) && s.run.value.pc == Push && s.run.value.next < |s.run.value.ids|
    ensures Honest(Next(s, Go(ok)))
  {
    StepKeepsWf(s, Go(ok));
    PushedRunIsHonest(s, ok);
    var r := s.run.value;
    PushedIsHonest(s, r.ids[r.next], CurrentInputs(r));
  }

  lemma PushKeepsHonest(s: State, ok: bool)
    requires Honest(s) && Enabled(s, Go(ok)) && s.run.value.pc == Push
    ensures Honest(Next(s, Go(ok)))
  {
    if s.run.value.next < |s.run.value.ids| { PushOneKeepsHonest(s, ok); } else { StepKeepsWf(s, Go(ok)); }
  }

  /** Before the loop over the children nothing has been pushed. */
  lemma EarlyGoKeepsReady(s: State, ok: bool)
    requires Wf(s) && Enabled(s, Go(ok)) && Idx(s.run.value.pc) < 7
    ensures GoParent(s, ok).run.Some? && GoParent(s, ok).run.value.next == 0 && GoParent(s, ok).children == s.children
  {
  }

  /** After it, readiness and the names it was about stay. */
  ghost predicate SameReadiness(r: Run, t: Run) {
    && t.next == r.next && t.ready == r.ready && t.ids == r.ids && Idx(t.pc) > 7
    && t.transport == r.transport && t.notif == r.notif && t.ac == r.ac
  }

  lemma FinalizingKeepsReady(s: State, ok: bool)
    requires Enabled(s, Go(ok)) && 8 <= Idx(s.run.value.pc) <= 10
    ensures GoParent(s, ok).run.Some? && GoParent(s, ok).children == s.children
    ensures SameReadiness(s.run.value, GoParent(s, ok).run.value)
  {
  }

  lemma PruningKeepsReady(s: State, ok: bool)
    requires Enabled(s, Go(ok)) && 11 <= Idx(s.run.value.pc)
    ensures GoParent(s, ok).run.Some? && GoParent(s, ok).children == s.children
    ensures SameReadiness(s.run.value, GoParent(s, ok).run.value)
  {
  }

  lemma GoKeepsHonest(s: State, ok: bool)
    requires Honest(s) && Enabled(s, Go(ok)) && s.run.value.pc != Push
    ensures Honest(Next(s, Go(ok)))
  {
    StepKeepsWf(s, Go(ok));
    if Idx(s.run.value.pc) < 7 {
      EarlyGoKeepsReady(s, ok);
    } else if Idx(s.run.value.pc) <= 10 {
      FinalizingKeepsReady(s, ok);
    }
    else { PruningKeepsReady(s, ok); }
  }

  lemma OtherKeepsHonest(s: State, st: Step)
    requires Honest(s) && Enabled(s, st) && !IsChildStep(st) && !st.Go?
    ensures Honest(Next(s, st))
  {
    StepKeepsWf(s, st);
    assert Next(s, st).children == s.children;
  }

  lemma {:induction false} RunKeepsHonest(s: State, steps: seq<Step>)
    requires Honest(s) && IsRun(s, steps)
    ensures Honest(After(s, steps))
    decreases |steps|
  {
    if steps != [] {
      var st := steps[0];
      if IsChildStep(st) { ChildKeepsHonest(s, st); }
      else if !st.Go? { OtherKeepsHonest(s, st); }
      else if s.run.value.pc == Push { PushKeepsHonest(s, st.ok); }
      else { GoKeepsHonest(s, st.ok); }
      RunKeepsHonest(Next(s, st), steps[1..]);
    }
  }

  // ---------------------------------------------------------------------
  // What a completed rollout is worth

  /** Every pod of the child runs the recorded template. */
  ghost predicate Runs(s: State, c: Id, x: Rolled) {
    c in s.children && s.children[c].tmpl == Some(x.snap) && forall p :: p in s.children[c].pods ==> p == x.snap
  }

  ghost predicate Recorded(s: State, c: Id, x: Rolled) { c in s.children && x in s.children[c].rolled }

  lemma RecordedWhenSeen(s: State, st: Step, c: Id, x: Rolled)
    requires Wf(s) && Enabled(s, st) && Recorded(Next(s, st), c, x) && !Recorded(s, c, x)
    ensures Runs(s, c, x) && st == ChildObserve(c, true)
  {
    if IsChildStep(st) && c == st.c {
      assert WfChild(s.children[c]);
    }
  }

  /** A rollout that a child has on record was seen: at some moment of the run
      all its pods ran that very template, and the workload was found ready. */
  lemma {:induction false} RecordedWasSeen(s: State, steps: seq<Step>, c: Id, x: Rolled) returns (i: nat)
    requires Wf(s) && IsRun(s, steps) && Recorded(After(s, steps), c, x) && !Recorded(s, c, x)
    ensures i < |steps| && steps[i] == ChildObserve(c, true)
    ensures IsRun(s, steps[..i]) && Runs(After(s, steps[..i]), c, x)
    decreases |steps|
  {
    var t := Next(s, steps[0]);
    if Recorded(t, c, x) {
      RecordedWhenSeen(s, steps[0], c, x);
      i := 0;
      assert steps[..0] == [];
    } else {
      StepKeepsWf(s, steps[0]);
      var j := RecordedWasSeen(t, steps[1..], c, x);
      i := j + 1;
      assert steps[..i][0] == steps[0] && steps[..i][1..] == steps[1..][..j];
    }
  }

  /** Handshake soundness, for every run whatsoever: when the parent goes on to
      finalize rotations with every service ready, the API and every conductor
      it knew of have completed a rollout of exactly the current names. */
  lemma HandshakeSound(s: State, steps: seq<Step>)
    requires Init(s) && IsRun(s, steps)
    ensures var t := After(s, steps);
            t.run.Some? && Idx(t.run.value.pc) > 7 && t.run.value.ready ==>
              && Ready(t.run.value) && API in t.run.value.ids
              && forall c :: c in t.run.value.ids
                  ==> c in t.children && Completed(t.children[c], CurrentInputs(t.run.value))
  {
    RunKeepsHonest(s, steps);
  }
}
