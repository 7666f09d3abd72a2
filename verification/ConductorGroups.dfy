/** Uniqueness of conductor groups at admission, and the keys and names the
    controller makes of them. */
module ConductorGroups {

  const NULL_GROUP := "null_conductor_group_null"

  /** The name that an unset group goes by. */
  function Effective(group: string): string { if group == "" then NULL_GROUP else group }

  ghost predicate PairwiseDistinct(names: seq<string>) {
    forall i, j :: 0 <= i < j < |names| ==> names[i] != names[j]
  }

  function EffectiveAll(groups: seq<string>): (r: seq<string>)
    ensures |r| == |groups| && forall i :: 0 <= i < |groups| ==> r[i] == Effective(groups[i])
  {
    seq(|groups|, i requires 0 <= i < |groups| => Effective(groups[i]))
  }

  /** j is where name i occurs first, and it is before i. */
  ghost predicate IsFirst(names: seq<string>, i: nat, j: nat)
    requires i < |names|
  {
    j < i && names[j] == names[i] && forall k :: 0 <= k < j ==> names[k] != names[i]
  }

  /** The index of the first occurrence of every name among the first n. */
  ghost predicate Seen(names: seq<string>, n: nat, seen: map<string, nat>)
    requires n <= |names|
  {
    && (forall k :: 0 <= k < n ==> names[k] in seen)
    && (forall g :: g in seen ==> seen[g] < n && names[seen[g]] == g && forall k :: 0 <= k < seen[g] ==> names[k] != g)
  }

  /** Every repetition among the first n names, with the first occurrence. */
  ghost predicate Repeated(names: seq<string>, n: nat, dupes: map<nat, nat>)
    requires n <= |names|
  {
    && (forall d :: d in dupes ==> d < n && IsFirst(names, d, dupes[d]))
    && (forall d, j :: 0 <= j < d < n && names[j] == names[d] ==> d in dupes)
  }

  method GroupName(group: string) returns (groupName: string)
    ensures groupName == Effective(group)
  {
    if group == "" { groupName := NULL_GROUP; } else { groupName := group; }
  }

  /** The unset group and the text that stands for it count as the same. */
  predicate SameGroup(g: string, h: string) {
    || g == h
    || (g == "" && h == "null_conductor_group_null")
    || (g == "null_conductor_group_null" && h == "")
  }

  lemma SameGroupIff(groups: seq<string>)
    ensures PairwiseDistinct(EffectiveAll(groups)) <==>
              forall i, j :: 0 <= i < j < |groups| ==> !SameGroup(groups[i], groups[j])
  {
    var names := EffectiveAll(groups);
    forall i, j | 0 <= i < j < |groups| ensures names[i] == names[j] <==> SameGroup(groups[i], groups[j]) {}
  }

  /** validateConductorGroupsUnique: every repeated group with the index of its
      first occurrence; the spec is rejected unless there is none. */
  method ValidateConductorGroupsUnique(groups: seq<string>) returns (dupes: map<nat, nat>)
    ensures dupes == map[] <==> PairwiseDistinct(EffectiveAll(groups))
    ensures dupes == map[] <==> forall i, j :: 0 <= i < j < |groups| ==> !SameGroup(groups[i], groups[j])
    ensures Repeated(EffectiveAll(groups), |groups|, dupes)
  {
    dupes := map[];
    var seen: map<string, nat> := map[];
    ghost var names := EffectiveAll(groups);
    for i := 0 to |groups|
      invariant Seen(names, i, seen) && Repeated(names, i, dupes)
    {
      var groupName := GroupName(groups[i]);
      Visit(names, i, seen, dupes, groupName);
      if groupName in seen {
        dupes := dupes[i := seen[groupName]];
        continue;
      }
      seen := seen[groupName := i];
    }
    EmptyIffDistinct(names, dupes);
    SameGroupIff(groups);
  }

  lemma Visit(names: seq<string>, i: nat, seen: map<string, nat>, dupes: map<nat, nat>, name: string)
    requires i < |names| && name == names[i] && Seen(names, i, seen) && Repeated(names, i, dupes)
    ensures name in seen ==> Seen(names, i + 1, seen) && Repeated(names, i + 1, dupes[i := seen[name]])
    ensures name !in seen ==> Seen(names, i + 1, seen[name := i]) && Repeated(names, i + 1, dupes)
  {
  }

  lemma EmptyIffDistinct(names: seq<string>, dupes: map<nat, nat>)
    requires Repeated(names, |names|, dupes)
    ensures dupes == map[] <==> PairwiseDistinct(names)
  {
    if dupes != map[] {
      var i :| i in dupes;
      assert IsFirst(names, i, dupes[i]);
    }
    if !PairwiseDistinct(names) {
      var i, j :| 0 <= i < j < |names| && names[i] == names[j];
      assert j in dupes;
    }
  }

  // ---------------------------------------------------------------------
  // The ready counts

  /** The counts of the conductors that caught up, by effective name; nothing else. */
  ghost predicate Mirrored(names: seq<string>, caughtUp: seq<bool>, counts: seq<int>, n: nat,
                           readyCount: map<string, int>)
    requires n <= |names| == |caughtUp| == |counts|
  {
    && (forall g :: g in readyCount ==>
          exists k :: 0 <= k < n && caughtUp[k] && g == names[k] && readyCount[g] == counts[k])
    && (forall k :: 0 <= k < n && caughtUp[k] ==> names[k] in readyCount)
  }

  /** The ready counts, by group. */
  method MirrorReadyCounts(groups: seq<string>, caughtUp: seq<bool>, counts: seq<int>)
    returns (readyCount: map<string, int>)
    requires |groups| == |caughtUp| == |counts|
    ensures Mirrored(EffectiveAll(groups), caughtUp, counts, |groups|, readyCount)
  {
    readyCount := map[];
    ghost var names := EffectiveAll(groups);
    for i := 0 to |groups|
      invariant Mirrored(names, caughtUp, counts, i, readyCount)
    {
      if caughtUp[i] {
        var condGrp := GroupName(groups[i]);
        assert condGrp == names[i];
        readyCount := readyCount[condGrp := counts[i]];
      }
    }
  }

  /** When admission found no duplicate, no two conductors write the same key:
      each one's count can be read back, and it is there exactly when the
      conductor caught up. */
  lemma AdmittedCountsAreOwn(groups: seq<string>, caughtUp: seq<bool>, counts: seq<int>, readyCount: map<string, int>,
                             i: nat)
    requires PairwiseDistinct(EffectiveAll(groups)) && i < |groups| == |caughtUp| == |counts|
    requires Mirrored(EffectiveAll(groups), caughtUp, counts, |groups|, readyCount)
    ensures var key := if groups[i] == "" then "null_conductor_group_null" else groups[i];
            (key in readyCount <==> caughtUp[i]) && (caughtUp[i] ==> readyCount[key] == counts[i])
  {
    var names := EffectiveAll(groups);
    if names[i] in readyCount {
      var k :| 0 <= k < |groups| && caughtUp[k] && names[i] == names[k] && readyCount[names[i]] == counts[k];
      assert k == i;
    }
  }

  // ---------------------------------------------------------------------
  // The names of the child CRs

  function LowerChar(c: char): char { if 'A' <= c <= 'Z' then (c as int + 32) as char else c }

  function ToLower(s: string): (r: string)
    ensures |r| == |s| && forall i :: 0 <= i < |s| ==> r[i] == LowerChar(s[i])
  {
    if s == "" then "" else ToLower(s[..|s| - 1]) + [LowerChar(s[|s| - 1])]
  }

  /** The name of the IronicConductor of a group. */
  function ChildName(instance: string, group: string): string {
    var name := instance + "-conductor";
    if group == "" then name else ToLower(name + "-" + group)
  }

  /** Two groups of one instance get the same child exactly when they are the same but for case. */
  lemma SameChildIff(instance: string, g: string, h: string)
    ensures ChildName(instance, g) == ChildName(instance, h) <==> ToLower(g) == ToLower(h)
  {
    var base := instance + "-conductor" + "-";
    if g != "" && h != "" {
      LowerOfConcat(base, g);
      LowerOfConcat(base, h);
      assert ChildName(instance, g)[|base|..] == ToLower(g) && ChildName(instance, h)[|base|..] == ToLower(h);
    } else {
      assert |ChildName(instance, g)| == |instance + "-conductor"| + (if g == "" then 0 else 1 + |g|);
      assert |ChildName(instance, h)| == |instance + "-conductor"| + (if h == "" then 0 else 1 + |h|);
    }
  }

  lemma LowerOfConcat(a: string, b: string)
    ensures ToLower(a + b) == ToLower(a) + ToLower(b)
  {
  }

  function ChildNames(instance: string, groups: seq<string>): (r: seq<string>)
    ensures |r| == |groups| && forall i :: 0 <= i < |groups| ==> r[i] == ChildName(instance, groups[i])
  {
    seq(|groups|, i requires 0 <= i < |groups| => ChildName(instance, groups[i]))
  }

  function LowerAll(groups: seq<string>): (r: seq<string>)
    ensures |r| == |groups| && forall i :: 0 <= i < |groups| ==> r[i] == ToLower(groups[i])
  {
    seq(|groups|, i requires 0 <= i < |groups| => ToLower(groups[i]))
  }

  /** The conductors get children of their own exactly when their groups stay distinct in lower case. */
  lemma ChildrenDistinctIff(instance: string, groups: seq<string>)
    ensures PairwiseDistinct(ChildNames(instance, groups)) <==> PairwiseDistinct(LowerAll(groups))
  {
    var names, lower := ChildNames(instance, groups), LowerAll(groups);
    forall i, j | 0 <= i < j < |groups| ensures names[i] != names[j] <==> lower[i] != lower[j] {
      SameChildIff(instance, groups[i], groups[j]);
    }
  }

  lemma LowerTwice(s: string)
    ensures ToLower(ToLower(s)) == ToLower(s)
  {
    forall i | 0 <= i < |s| ensures ToLower(ToLower(s))[i] == ToLower(s)[i] {
      assert LowerChar(LowerChar(s[i])) == LowerChar(s[i]);
    }
  }

  /** Only letters from A to Z are changed, each to its own small letter. */
  lemma LowerText(s: string, i: nat)
    requires i < |s|
    ensures ToLower(s)[i] != s[i] <==> 'A' <= s[i] <= 'Z'
    ensures 'A' <= s[i] <= 'Z' ==> 'a' <= ToLower(s)[i] <= 'z' && ToLower(s)[i] as int - s[i] as int == 32
  {
    LowerLetter(s[i]);
    assert ToLower(s)[i] == LowerChar(s[i]);
  }

  lemma LowerLetter(c: char)
    ensures LowerChar(c) != c <==> 'A' <= c <= 'Z'
    ensures 'A' <= c <= 'Z' ==> 'a' <= LowerChar(c) <= 'z' && LowerChar(c) as int - c as int == 32
  {
    if 'A' <= c <= 'Z' {
      assert LowerChar(c) as int == c as int + 32;
      assert 'a' as int == 97 && 'z' as int == 122 && 'A' as int == 65 && 'Z' as int == 90;
    }
  }

  /** The whole name is lower-cased, but for the conductor without a group. */
  lemma ChildNameText(instance: string, group: string)
    ensures ChildName(instance, "") == instance + "-conductor"
    ensures group != "" ==> ChildName(instance, group) == ToLower(instance) + "-conductor-" + ToLower(group)
  {
    assert ToLower("-conductor") == "-conductor" && ToLower("-") == "-";
    LowerOfConcat(instance, "-conductor");
    LowerOfConcat(instance + "-conductor", "-");
    LowerOfConcat(instance + "-conductor" + "-", group);
  }

  lemma PairAdmitted(g: string, h: string)
    requires g != "" && h != "" && g != h
    ensures PairwiseDistinct(EffectiveAll([g, h]))
  {
    var names := EffectiveAll([g, h]);
    assert names[0] == g && names[1] == h;
  }

  lemma PairCollides(g: string, h: string)
    requires ToLower(g) == ToLower(h)
    ensures !PairwiseDistinct(LowerAll([g, h]))
  {
    var lower := LowerAll([g, h]);
    assert lower[0] == lower[1];
  }

  /** Admission does not see that: any group that is not in lower case passes
      together with its lower-case variant, and both get the same child. */
  lemma CaseVariantsCollide(instance: string, group: string)
    requires exists i :: 0 <= i < |group| && 'A' <= group[i] <= 'Z'
    ensures PairwiseDistinct(EffectiveAll([group, ToLower(group)]))
    ensures !PairwiseDistinct(ChildNames(instance, [group, ToLower(group)]))
  {
    var i :| 0 <= i < |group| && 'A' <= group[i] <= 'Z';
    LowerText(group, i);
    assert ToLower("") == "";
    PairAdmitted(group, ToLower(group));
    LowerTwice(group);
    PairCollides(group, ToLower(group));
    ChildrenDistinctIff(instance, [group, ToLower(group)]);
  }
}
