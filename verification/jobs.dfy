/**
 * `IJobParallelFor` as the modifiers use it: `Schedule(states.Length, …)`
 * followed by `Complete()` runs `Execute(index)` once for every index, and
 * each `Execute` reads `states[index]`, changes it and writes it back. The
 * batches run in some order on worker threads; since each index touches only
 * its own element, the outcome is that of one sequential pass.
 */
module Jobs {

  /** The states after every index has been executed once. */
  function ParallelFor<T>(s: seq<T>, execute: (nat, T) -> T): (r: seq<T>)
    ensures |r| == |s|
    ensures forall i :: 0 <= i < |s| ==> r[i] == execute(i, s[i])
  {
    seq(|s|, (i: int) requires 0 <= i < |s| => execute(i, s[i]))
  }

  /** Runs `execute` over the array in place, one read-modify-write per index. */
  method RunParallelFor<T>(states: array<T>, execute: (nat, T) -> T)
    modifies states
    ensures states[..] == ParallelFor(old(states[..]), execute)
  {
    var i := 0;
    while i < states.Length
      invariant 0 <= i <= states.Length
      invariant forall k :: 0 <= k < i ==> states[k] == execute(k, old(states[k]))
      invariant forall k :: i <= k < states.Length ==> states[k] == old(states[k])
    {
      states[i] := execute(i, states[i]);
      i := i + 1;
    }
  }
}
