/** Deleting a CR: its consumer finalizers are taken off before its own one is. */
module Deletion {
  import opened Secrets
  import opened Wrappers
  import SelfRotation
  import SelfRotationSafety

  function NamesOf(names: seq<Name>): set<Name> { set i | 0 <= i < |names| :: names[i] }

  /** The holders left when the given number of calls went to the listed secrets. */
  function Without(holders: set<Name>, names: seq<Name>, calls: int): (left: set<Name>)
    ensures left <= holders
    ensures calls >= |names| ==> left == holders - Real(NamesOf(names))
    ensures forall n :: n in left <==>
              n in holders && (n == "" || forall i :: 0 <= i < |names| && i < calls ==> names[i] != n)
  {
    assert names[..|names|] == names;
    holders - Real(NamesOf(names[..if calls < 0 then 0 else if calls < |names| then calls else |names|]))
  }

  /** Takes the finalizer off one listed secret after the other; the call that
      exceeds the budget fails, and the reconcile returns there. */
  method RemoveEach(holders: set<Name>, names: seq<Name>, calls: nat) returns (left: set<Name>, rest: nat, done: bool)
    ensures done <==> calls >= |names|
    ensures done ==> rest == calls - |names|
    ensures left == Without(holders, names, calls)
  {
    left, rest, done := holders, calls, false;
    for i := 0 to |names|
      invariant rest == calls - i
      invariant left == holders - Real(NamesOf(names[..i]))
    {
      if rest == 0 { return; }
      left, rest := Remove(left, names[i]), rest - 1;
      assert names[..i + 1] == names[..i] + [names[i]];
      assert NamesOf(names[..i + 1]) == NamesOf(names[..i]) + {names[i]} by {
        forall n | n in NamesOf(names[..i + 1]) ensures n in NamesOf(names[..i]) + {names[i]} {
          var j :| 0 <= j < i + 1 && names[..i + 1][j] == n;
          if j < i { assert names[..i][j] == n; }
        }
        forall n | n in NamesOf(names[..i]) ensures n in NamesOf(names[..i + 1]) {
          var j :| 0 <= j < i && names[..i][j] == n;
          assert names[..i + 1][j] == n;
        }
        assert names[..i + 1][i] == names[i];
      }
    }
    done := true;
    assert names[..|names|] == names;
  }

  // ---------------------------------------------------------------------
  // Retries

  /** What attempts leave behind that stopped after the given numbers of calls. */
  function AfterAttempts(holders: set<Name>, names: seq<Name>, cuts: seq<nat>): set<Name>
    decreases |cuts|
  {
    if cuts == [] then holders
    else Without(AfterAttempts(holders, names, cuts[..|cuts| - 1]), names, cuts[|cuts| - 1])
  }

  lemma PrefixNames(names: seq<Name>, k: nat)
    requires k <= |names|
    ensures NamesOf(names[..k]) <= NamesOf(names)
  {
    forall n | n in NamesOf(names[..k]) ensures n in NamesOf(names) {
      var j :| 0 <= j < k && names[..k][j] == n;
      assert names[j] == n;
    }
  }

  /** However many attempts stopped half way, the one that completes leaves
      exactly the holders that are not listed. */
  lemma {:induction false} RetriesRemoveListed(holders: set<Name>, names: seq<Name>, cuts: seq<nat>)
    ensures Without(AfterAttempts(holders, names, cuts), names, |names|) == holders - Real(NamesOf(names))
    ensures AfterAttempts(holders, names, cuts) <= holders
    decreases |cuts|
  {
    if cuts != [] {
      RetriesRemoveListed(holders, names, cuts[..|cuts| - 1]);
      var last := cuts[|cuts| - 1];
      PrefixNames(names, if last < |names| then last else |names|);
    }
  }

  // ---------------------------------------------------------------------
  // IronicInspector and IronicNeutronAgent

  /** The secrets their delete lists: the tracked ones and the live ones. */
  function Listed(s: SelfRotation.State): (names: seq<Name>)
  {
    [s.status.transport, s.live, s.liveNotif, s.status.notif]
  }

  lemma ListedNames(s: SelfRotation.State)
    ensures NamesOf(Listed(s)) == {s.status.transport, s.live, s.liveNotif, s.status.notif}
  {
    assert Listed(s)[0] == s.status.transport && Listed(s)[1] == s.live && Listed(s)[2] == s.liveNotif
           && Listed(s)[3] == s.status.notif;
  }

  /** The holders that a completed delete leaves behind. */
  function Deleted(s: SelfRotation.State): set<Name> { Without(s.held, Listed(s), 4) }

  /** Whatever attempts failed before, a completed delete leaves no finalizer
      behind exactly when every holder was a tracked or a live secret. */
  lemma DeleteIsCompleteIff(s: SelfRotation.State, cuts: seq<nat>)
    requires "" !in s.held
    ensures Without(AfterAttempts(s.held, Listed(s), cuts), Listed(s), 4) == {}
            <==> s.held <= {s.status.transport, s.live, s.liveNotif, s.status.notif}
  {
    RetriesRemoveListed(s.held, Listed(s), cuts);
    ListedNames(s);
  }

  /** That is so right after a reconcile that ran to its end and saw the names that are still live. */
  lemma DeleteAfterFullReconcile(s: SelfRotation.State)
    requires SelfRotation.Reachable(s) && SelfRotation.Apart(s)
    requires s.run.Some? && s.run.value.pc == SelfRotation.Finished && s.run.value.transport == s.live
             && s.run.value.notif == s.liveNotif
    ensures Deleted(SelfRotation.Next(s, SelfRotation.End(true))) == {}
  {
    SelfRotation.ReachableWf(s);
    SelfRotationSafety.NoLeak(s);
    ListedNames(SelfRotation.Next(s, SelfRotation.End(true)));
  }

  /** It is not so in the middle of a rapid rotation A -> B -> C: from any
      state that tracks the live secret A, one reconcile that sees B and a
      second rotation lead to a state where B keeps its finalizer for good. */
  lemma RapidRotationOutlivesDelete(s: SelfRotation.State, b: Name, c: Name)
    requires s.run.None? && s.status.transport == s.live != ""
    requires s.status.hash != Some(SelfRotation.Config(b, s.liveNotif, s.other))
    requires b !in {"", s.live, s.liveNotif, c} && c != ""
    ensures exists u ::
              && SelfRotationSafety.Reaches(s, u)
              && b in Deleted(SelfRotation.Next(u, SelfRotation.RotateTransport(c)))
  {
    assert SelfRotation.IsRun(s, []) && SelfRotationSafety.Along(s, []) && SelfRotation.After(s, []) == s;
    SelfRotationSafety.ReachesNext(s, s, SelfRotation.RotateTransport(b));
    var rotated := SelfRotation.Next(s, SelfRotation.RotateTransport(b));
    SelfRotationSafety.SeesChange(s, rotated);
    var cfg := SelfRotation.Config(b, s.liveNotif, s.other);
    var u := rotated.(held := SelfRotationSafety.Held(rotated), cfg := cfg,
                      status := SelfRotation.Status(s.live, s.liveNotif, Some(cfg)));
    ListedNames(SelfRotation.Next(u, SelfRotation.RotateTransport(c)));
  }
}
