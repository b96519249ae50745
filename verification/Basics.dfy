/** Types and small facts shared by otherwise unrelated components. */
module Basics {

  datatype Option<+T> = None | Some(value: T)

  /** The identifier of a device. */
  datatype Uuid = Uuid(text: string)

  function Bit(b: bool): nat {
    if b then 1 else 0
  }

  predicate Distinct<T(==)>(s: seq<T>) {
    forall i, j :: 0 <= i < j < |s| ==> s[i] != s[j]
  }

  /** If each step of a run keeps p exactly when q holds of the step, then p holds throughout
      exactly when q does. */
  lemma FirstBreak(p: seq<bool>, q: seq<bool>)
    requires |p| == |q| + 1 && p[0]
    requires forall i :: 0 <= i < |q| && p[i] ==> (p[i + 1] <==> q[i])
    ensures (forall i :: 0 <= i < |p| ==> p[i]) <==> (forall i :: 0 <= i < |q| ==> q[i])
  {
    if forall i :: 0 <= i < |p| ==> p[i] {
      forall i | 0 <= i < |q|
        ensures q[i]
      {
        assert p[i] && p[i + 1];
      }
    }
    if forall i :: 0 <= i < |q| ==> q[i] {
      for i := 0 to |q|
        invariant forall j :: 0 <= j <= i ==> p[j]
      {
        assert p[i] && q[i];
      }
    }
  }
}
