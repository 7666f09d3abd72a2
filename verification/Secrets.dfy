/** Consumer finalizers on Kubernetes secrets.

    A set of names stands for "the secrets of the namespace that carry one
    given consumer finalizer".  The empty name means "no secret".  The four
    operations are the contracts the controllers rely on; their own bodies
    live in a library outside this repository. */
module Secrets {

  type Name = string

  /** The names of a set that stand for a real secret. */
  function Real(names: set<Name>): (r: set<Name>)
    ensures forall n :: n in r <==> n in names && n != ""
  {
    names - {""}
  }

  /** Puts the finalizer on secret n. */
  function Manage(held: set<Name>, n: Name): (r: set<Name>)
    ensures n in r && held <= r
  {
    held + {n}
  }

  /** Takes the finalizer off secret n; does nothing for the empty name. */
  function Remove(held: set<Name>, n: Name): (r: set<Name>)
    ensures n == "" ==> r == held
    ensures n != "" ==> n !in r
    ensures forall m :: m != n ==> (m in r <==> m in held)
  {
    if n == "" then held else held - {n}
  }

  /** Takes the finalizer off every secret that is not to be kept. */
  function Prune(held: set<Name>, keep: set<Name>): (r: set<Name>)
    ensures r <= held && r <= keep
    ensures forall n :: n in held && n in keep ==> n in r
  {
    held * keep
  }

  /** The outcome of FinalizeRotation: the name to track from now on, and the holders. */
  datatype Rotated = Rotated(tracked: Name, held: set<Name>)

  /** Ends a rotation: a real previous secret that differs from the current one
      is kept and stays tracked until the workloads are ready; otherwise it is
      released and the current one is tracked. */
  function FinalizeRotation(held: set<Name>, previous: Name, current: Name, ready: bool): (r: Rotated)
    ensures r.tracked == previous || r.tracked == current
    ensures r.tracked != current ==> previous != "" && !ready && r.held == held
    ensures forall n :: n in held && n !in r.held ==> n == previous && previous != current && ready
    ensures r.held <= held
  {
    if previous != "" && previous != current && !ready then Rotated(previous, held)
    else if previous == current then Rotated(current, held)
    else Rotated(current, Remove(held, previous))
  }
}
