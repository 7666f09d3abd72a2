/** Who owns the HAProxy timeout of a route: the operator, as long as its flag
    annotation equals the timeout, or a human. */
module RouteAnnotations {

  type Annotations = map<string, string>

  const HAPROXY := "haproxy.router.openshift.io/timeout"
  const API_FLAG := "api.ironic.openstack.org/timeout"
  const INSPECTOR_FLAG := "inspector.ironic.openstack.org/timeout"

  /** The two variants of the defaulter differ only in the flag they use. */
  datatype Variant = Api | Inspector

  function Flag(v: Variant): string { if v == Api then API_FLAG else INSPECTOR_FLAG }

  function Other(v: Variant): Variant { if v == Api then Inspector else Api }

  lemma KeysDiffer(v: Variant)
    ensures Flag(v) != HAPROXY && Flag(v) != Flag(Other(v))
  {
    assert Flag(v)[0] != HAPROXY[0] && Flag(v)[0] != Flag(Other(v))[0];
  }

  /** The flag of the variant vouches for the timeout that is set. */
  predicate Owns(a: Annotations, v: Variant) { Flag(v) in a && HAPROXY in a && a[Flag(v)] == a[HAPROXY] }

  /** A human set the timeout: it is there and no flag vouches for it. */
  predicate HumanOwns(a: Annotations) { HAPROXY in a && !Owns(a, Api) && !Owns(a, Inspector) }

  /** The annotations after a call of the defaulter. */
  function Defaulted(a: Annotations, v: Variant, timeout: string): Annotations {
    if HAPROXY in a && !Owns(a, v) then a - {Flag(v)}
    else a[Flag(v) := timeout][HAPROXY := timeout]
  }

  class Route {
    var annotations: Annotations

    method SetDefault(v: Variant, timeout: string)
      modifies this
      ensures annotations == Defaulted(old(annotations), v, timeout)
    {
      var flagged, timed := Flag(v) in annotations, HAPROXY in annotations;
      if !flagged && timed {
        assert annotations - {Flag(v)} == annotations;
        return;
      }
      if flagged && timed && annotations[Flag(v)] != annotations[HAPROXY] {
        annotations := annotations - {Flag(v)};
        return;
      }
      annotations := annotations[Flag(v) := timeout];
      annotations := annotations[HAPROXY := timeout];
    }

    method SetDefaultRouteAnnotations(timeout: string)
      modifies this
      ensures annotations == Defaulted(old(annotations), Api, timeout)
    {
      SetDefault(Api, timeout);
    }

    method SetDefaultInspectorRouteAnnotations(timeout: string)
      modifies this
      ensures annotations == Defaulted(old(annotations), Inspector, timeout)
    {
      SetDefault(Inspector, timeout);
    }
  }

  // ---------------------------------------------------------------------
  // One call

  /** After a call the flag is there only together with an equal timeout; the
      timeout is the operator's exactly when no human had set it; a second
      call changes nothing; and no other annotation is touched. */
  lemma CallSettles(a: Annotations, v: Variant, timeout: string)
    ensures var b := Defaulted(a, v, timeout);
            && HAPROXY in b
            && (Flag(v) in b <==> Owns(b, v))
            && (Owns(b, v) <==> HAPROXY !in a || Owns(a, v))
            && b[HAPROXY] == (if HAPROXY !in a || Owns(a, v) then timeout else a[HAPROXY])
            && Defaulted(b, v, timeout) == b
            && forall k :: k !in {Flag(v), HAPROXY} ==> (k in b <==> k in a) && (k in b ==> b[k] == a[k])
  {
    KeysDiffer(v);
    var b := Defaulted(a, v, timeout);
    if !Owns(b, v) { assert b - {Flag(v)} == b; }
    assert Defaulted(b, v, timeout) == b;
  }

  /** One variant overwrites a timeout that the other one owns exactly when it
      owns it as well and wants another. */
  lemma OverwritesOtherIff(a: Annotations, v: Variant, timeout: string)
    requires Owns(a, Other(v))
    ensures Defaulted(a, v, timeout)[HAPROXY] != a[HAPROXY] <==> Owns(a, v) && timeout != a[HAPROXY]
  {
    KeysDiffer(v);
  }

  // ---------------------------------------------------------------------
  // Runs

  /** A call of either variant, or any edit by a human. */
  datatype Step = Call(v: Variant, timeout: string) | Edit(to: Annotations)

  function Next(a: Annotations, step: Step): Annotations {
    match step
    case Call(v, timeout) => Defaulted(a, v, timeout)
    case Edit(to) => to
  }

  function After(a: Annotations, steps: seq<Step>): Annotations
    decreases |steps|
  {
    if steps == [] then a else After(Next(a, steps[0]), steps[1..])
  }

  predicate OnlyCalls(steps: seq<Step>) { forall i :: 0 <= i < |steps| ==> steps[i].Call? }

  /** A human's timeout survives any number of operator calls of either kind, whatever timeouts they bring. */
  lemma {:induction false} HumanTimeoutSurvives(a: Annotations, steps: seq<Step>)
    requires HumanOwns(a) && OnlyCalls(steps)
    ensures HumanOwns(After(a, steps)) && After(a, steps)[HAPROXY] == a[HAPROXY]
    decreases |steps|
  {
    if steps != [] {
      KeysDiffer(steps[0].v);
      HumanTimeoutSurvives(Next(a, steps[0]), steps[1..]);
    }
  }

  /** At most one flag, and none without a timeout. */
  predicate Tidy(a: Annotations) {
    && !(API_FLAG in a && INSPECTOR_FLAG in a)
    && (API_FLAG in a || INSPECTOR_FLAG in a ==> HAPROXY in a)
  }

  /** Every human edit in the run leaves the annotations tidy. */
  predicate TidyEdits(steps: seq<Step>) { forall i :: 0 <= i < |steps| && steps[i].Edit? ==> Tidy(steps[i].to) }

  /** Along a run from tidy annotations, as long as human edits keep them tidy,
      neither variant ever overwrites a timeout that the other one owns. */
  lemma {:induction false} VariantsRespectEachOther(a: Annotations, steps: seq<Step>, v: Variant, timeout: string)
    requires Tidy(a) && TidyEdits(steps)
    ensures Tidy(After(a, steps))
    ensures Owns(After(a, steps), Other(v)) ==> Defaulted(After(a, steps), v, timeout) == After(a, steps)
    decreases |steps|
  {
    if steps != [] {
      if steps[0].Call? { KeysDiffer(steps[0].v); }
      VariantsRespectEachOther(Next(a, steps[0]), steps[1..], v, timeout);
    }
  }

  // ---------------------------------------------------------------------
  // When human edits leave two flags that match

  /** The step sets another timeout although the other variant owns the one there. */
  predicate Overwrites(a: Annotations, step: Step) {
    step.Call? && Owns(a, Other(step.v)) && Defaulted(a, step.v, step.timeout)[HAPROXY] != a[HAPROXY]
  }

  function Count(a: Annotations, steps: seq<Step>): nat
    decreases |steps|
  {
    if steps == [] then 0 else (if Overwrites(a, steps[0]) then 1 else 0) + Count(Next(a, steps[0]), steps[1..])
  }

  /** Variant v owns the timeout, and a flag of the other one is left over from timeout x. */
  predicate LeftOver(a: Annotations, v: Variant, x: string) {
    Owns(a, v) && (Flag(Other(v)) in a ==> a[Flag(Other(v))] == x != a[HAPROXY])
  }

  lemma CallKeepsLeftOver(a: Annotations, v: Variant, x: string, step: Step)
    requires LeftOver(a, v, x) && step.Call? && step != Call(v, x)
    ensures LeftOver(Next(a, step), v, x) && !Overwrites(a, step)
  {
    KeysDiffer(v);
  }

  lemma {:induction false} LeftOverPreventsOverwrites(a: Annotations, steps: seq<Step>, v: Variant, x: string)
    requires LeftOver(a, v, x) && OnlyCalls(steps) && Call(v, x) !in steps
    ensures Count(a, steps) == 0
    decreases |steps|
  {
    if steps != [] {
      assert steps[0] in steps;
      CallKeepsLeftOver(a, v, x, steps[0]);
      LeftOverPreventsOverwrites(Next(a, steps[0]), steps[1..], v, x);
    }
  }

  /** Once a variant has overwritten timeout x of the other one, the next call
      of the other one, whatever it asks for, leaves the timeout alone and gives
      its flag up, and the annotations are tidy; and along operator calls no
      overwriting follows unless the same variant asks for exactly x again. */
  lemma OverwrittenGivesUp(a: Annotations, v: Variant, timeout: string, answer: string, steps: seq<Step>)
    requires Overwrites(a, Call(v, timeout)) && OnlyCalls(steps)
    ensures var b := Defaulted(a, v, timeout);
            && Defaulted(b, Other(v), answer) == b - {Flag(Other(v))}
            && Tidy(Defaulted(b, Other(v), answer)) && Owns(Defaulted(b, Other(v), answer), v)
            && (Count(b, steps) > 0 ==> Call(v, a[HAPROXY]) in steps)
  {
    KeysDiffer(v);
    var b := Defaulted(a, v, timeout);
    assert LeftOver(b, v, a[HAPROXY]);
    if Call(v, a[HAPROXY]) !in steps { LeftOverPreventsOverwrites(b, steps, v, a[HAPROXY]); }
  }

  /** As long as each variant keeps to its own timeout there is one overwriting
      at most, from whatever annotations. */
  lemma {:induction false} FixedTimeoutsOverwriteOnce(a: Annotations, steps: seq<Step>, timeout: Variant -> string)
    requires forall i :: 0 <= i < |steps| ==> steps[i].Call? && steps[i].timeout == timeout(steps[i].v)
    ensures Count(a, steps) <= 1
    decreases |steps|
  {
    if steps != [] {
      if Overwrites(a, steps[0]) {
        KeysDiffer(steps[0].v);
        LeftOverPreventsOverwrites(Next(a, steps[0]), steps[1..], steps[0].v, a[HAPROXY]);
      } else {
        FixedTimeoutsOverwriteOnce(Next(a, steps[0]), steps[1..], timeout);
      }
    }
  }

  /** The edit that matters: a human who takes the timeout away but leaves the
      flag lets the other variant set the same timeout.  Then both own it, and
      either of them overwrites it with any other timeout. */
  lemma UntidyEditStartsConflict(t: string, u: string, v: Variant)
    requires t != u
    ensures var start: Annotations := map[API_FLAG := t, HAPROXY := t];
            var edited := start - {HAPROXY};
            var both := Defaulted(edited, Inspector, t);
            && Tidy(start) && !Tidy(edited)
            && Owns(both, Api) && Owns(both, Inspector) && Overwrites(both, Call(v, u))
  {
    KeysDiffer(Api);
    KeysDiffer(Inspector);
  }

  function Wavering(v: Variant, t: string, u: string, n: nat): (steps: seq<Step>)
    ensures OnlyCalls(steps) && |steps| == 2 * n
  {
    if n == 0 then [] else [Call(v, u), Call(v, t)] + Wavering(v, t, u, n - 1)
  }

  /** A variant that wavers between the timeout both own and another one
      overwrites the other variant's timeout any number of times. */
  lemma {:induction false} WaveringOverwritesForever(a: Annotations, v: Variant, u: string, n: nat)
    requires Owns(a, Api) && Owns(a, Inspector) && u != a[HAPROXY]
    ensures Count(a, Wavering(v, a[HAPROXY], u, n)) == n
  {
    if n > 0 {
      KeysDiffer(v);
      var t := a[HAPROXY];
      var steps := Wavering(v, t, u, n);
      var b := Next(a, steps[0]);
      var c := Next(b, steps[1]);
      assert steps[1..][0] == steps[1] && steps[1..][1..] == Wavering(v, t, u, n - 1);
      assert Overwrites(a, steps[0]) && !Overwrites(b, steps[1]);
      WaveringOverwritesForever(c, v, u, n - 1);
    }
  }
}
