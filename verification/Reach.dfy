/** Reachability by a worklist, on positions; then on the nodes of a shape. */
module Reach {
  import opened Prelude
  import opened Structure

  ghost predicate InRange(adjacency: seq<seq<nat>>) {
    forall i, k :: 0 <= i < |adjacency| && 0 <= k < |adjacency[i]| ==> adjacency[i][k] < |adjacency|
  }

  /** A walk of positions along the adjacency. */
  ghost predicate IsPath(adjacency: seq<seq<nat>>, path: seq<nat>) {
    && path != [] && (forall i :: 0 <= i < |path| ==> path[i] < |adjacency|)
    && forall i :: 0 <= i < |path| - 1 ==> path[i + 1] in adjacency[path[i]]
  }

  ghost predicate PathTo(adjacency: seq<seq<nat>>, seeds: seq<nat>, path: seq<nat>, i: nat) {
    IsPath(adjacency, path) && path[0] in seeds && path[|path| - 1] == i
  }

  ghost predicate Reaches(adjacency: seq<seq<nat>>, seeds: seq<nat>, i: nat) {
    exists path :: PathTo(adjacency, seeds, path, i)
  }

  lemma ReachesNext(adjacency: seq<seq<nat>>, seeds: seq<nat>, i: nat, next: nat)
    requires InRange(adjacency) && i < |adjacency| && next in adjacency[i] && Reaches(adjacency, seeds, i)
    ensures Reaches(adjacency, seeds, next)
  {
    var path :| PathTo(adjacency, seeds, path, i);
    assert PathTo(adjacency, seeds, path + [next], next);
  }

  /** A set of positions that holds the seeds and is closed under the adjacency holds all that is reached. */
  lemma {:induction false} ClosedHoldsReached(adjacency: seq<seq<nat>>, seeds: seq<nat>, seen: seq<bool>, path: seq<nat>)
    requires |seen| == |adjacency| && IsPath(adjacency, path) && path[0] in seeds
    requires forall s :: s in seeds && s < |seen| ==> seen[s]
    requires forall i, next :: 0 <= i < |seen| && seen[i] && next in adjacency[i] && next < |seen| ==> seen[next]
    ensures seen[path[|path| - 1]]
  {
    if |path| > 1 {
      ClosedHoldsReached(adjacency, seeds, seen, path[..|path| - 1]);
    }
  }

  lemma NeighboursReached(adjacency: seq<seq<nat>>, seeds: seq<nat>, i: nat)
    requires InRange(adjacency) && i < |adjacency| && Reaches(adjacency, seeds, i)
    ensures forall next :: next in adjacency[i] ==> next < |adjacency| && Reaches(adjacency, seeds, next)
  {
    forall next | next in adjacency[i] ensures next < |adjacency| && Reaches(adjacency, seeds, next) {
      ReachesNext(adjacency, seeds, i, next);
    }
  }

  lemma NothingMissed(adjacency: seq<seq<nat>>, seeds: seq<nat>, seen: seq<bool>)
    requires Expanded(adjacency, seen, [], -1)
    requires forall s :: s in seeds && s < |seen| ==> seen[s]
    ensures forall i :: 0 <= i < |seen| && Reaches(adjacency, seeds, i) ==> seen[i]
  {
    forall i | 0 <= i < |seen| && Reaches(adjacency, seeds, i) ensures seen[i] {
      var path :| PathTo(adjacency, seeds, path, i);
      ClosedHoldsReached(adjacency, seeds, seen, path);
    }
  }

  function Unseen(seen: seq<bool>): (r: nat) {
    if seen == [] then 0 else Unseen(seen[..|seen| - 1]) + if seen[|seen| - 1] then 0 else 1
  }

  lemma {:induction false} SeeingOne(seen: seq<bool>, i: nat)
    requires i < |seen| && !seen[i]
    ensures Unseen(seen[i := true]) == Unseen(seen) - 1
  {
    if i < |seen| - 1 {
      SeeingOne(seen[..|seen| - 1], i);
      assert seen[i := true][..|seen| - 1] == seen[..|seen| - 1][i := true];
    } else {
      assert seen[i := true][..|seen| - 1] == seen[..|seen| - 1];
    }
  }

  ghost predicate Marked(adjacency: seq<seq<nat>>, seeds: seq<nat>, seen: seq<bool>, pending: seq<nat>) {
    && |seen| == |adjacency| && (forall p :: p in pending ==> p < |seen| && seen[p])
    && forall i :: 0 <= i < |seen| && seen[i] ==> Reaches(adjacency, seeds, i)
  }

  /** Every seen position that is not pending (nor `but`) has all its neighbours seen. */
  ghost predicate Expanded(adjacency: seq<seq<nat>>, seen: seq<bool>, pending: seq<nat>, but: int) {
    |seen| == |adjacency|
    && forall i, next :: 0 <= i < |seen| && i != but && seen[i] && i !in pending ==>
                           next in adjacency[i] && next < |seen| ==> seen[next]
  }

  lemma Popped(adjacency: seq<seq<nat>>, seeds: seq<nat>, seen: seq<bool>, pending: seq<nat>, rest: seq<nat>, current: nat)
    requires pending == rest + [current]
    requires Marked(adjacency, seeds, seen, pending) && Expanded(adjacency, seen, pending, -1)
    ensures Marked(adjacency, seeds, seen, rest) && Expanded(adjacency, seen, rest, current)
  {
    assert forall p :: p in rest ==> p in pending;
    assert forall p :: p in pending ==> p in rest || p == current;
  }

  lemma Finished(adjacency: seq<seq<nat>>, seen: seq<bool>, pending: seq<nat>, current: nat)
    requires current < |adjacency| && Expanded(adjacency, seen, pending, current)
    requires forall next :: next in adjacency[current] && next < |seen| ==> seen[next]
    ensures Expanded(adjacency, seen, pending, -1)
  {
  }

  /** Marks the given positions that are not marked yet and pushes them. */
  method Push(adjacency: seq<seq<nat>>, ghost seeds: seq<nat>, seen: array<bool>, pending: seq<nat>, found: seq<nat>,
              ghost but: int)
    returns (stack: seq<nat>)
    requires Marked(adjacency, seeds, seen[..], pending) && Expanded(adjacency, seen[..], pending, but)
    requires forall f :: f in found ==> f < seen.Length && Reaches(adjacency, seeds, f)
    modifies seen
    ensures Marked(adjacency, seeds, seen[..], stack) && Expanded(adjacency, seen[..], stack, but)
    ensures forall f :: f in found ==> seen[f]
    ensures forall i :: 0 <= i < seen.Length && old(seen[i]) ==> seen[i]
    ensures Unseen(seen[..]) + |stack| == Unseen(old(seen[..])) + |pending|
  {
    stack := pending;
    for k := 0 to |found|
      invariant Marked(adjacency, seeds, seen[..], stack) && Expanded(adjacency, seen[..], stack, but)
      invariant forall f :: f in found[..k] ==> f < seen.Length && seen[f]
      invariant forall i :: 0 <= i < seen.Length && old(seen[i]) ==> seen[i]
      invariant Unseen(seen[..]) + |stack| == Unseen(old(seen[..])) + |pending|
    {
      assert found[k] in found && found[..k + 1] == found[..k] + [found[k]];
      if !seen[found[k]] {
        SeeingOne(seen[..], found[k]);
        ghost var was := seen[..];
        seen[found[k]] := true;
        assert seen[..] == was[found[k] := true];
        stack := stack + [found[k]];
      }
    }
    assert found[..|found|] == found;
  }

  /** Takes the last position off the worklist and pushes its neighbours that are not marked yet. */
  method Expand(adjacency: seq<seq<nat>>, ghost seeds: seq<nat>, seen: array<bool>, pending: seq<nat>)
    returns (stack: seq<nat>)
    requires InRange(adjacency) && pending != []
    requires Marked(adjacency, seeds, seen[..], pending) && Expanded(adjacency, seen[..], pending, -1)
    modifies seen
    ensures Marked(adjacency, seeds, seen[..], stack) && Expanded(adjacency, seen[..], stack, -1)
    ensures forall i :: 0 <= i < seen.Length && old(seen[i]) ==> seen[i]
    ensures Unseen(seen[..]) + |stack| < Unseen(old(seen[..])) + |pending|
  {
    var current := pending[|pending| - 1];
    var rest := pending[..|pending| - 1];
    assert pending == rest + [current] && current in pending;
    NeighboursReached(adjacency, seeds, current);
    Popped(adjacency, seeds, seen[..], pending, rest, current);
    stack := Push(adjacency, seeds, seen, rest, adjacency[current], current);
    Finished(adjacency, seen[..], stack, current);
  }

  /** Marks exactly the positions that are reached from the seeds. */
  method Flood(adjacency: seq<seq<nat>>, seeds: seq<nat>) returns (reached: seq<bool>)
    requires InRange(adjacency) && forall s :: s in seeds ==> s < |adjacency|
    ensures |reached| == |adjacency|
    ensures forall i :: 0 <= i < |reached| ==> (reached[i] <==> Reaches(adjacency, seeds, i))
  {
    var seen := new bool[|adjacency|](_ => false);
    forall s | s in seeds ensures Reaches(adjacency, seeds, s) {
      assert PathTo(adjacency, seeds, [s], s);
    }
    var pending := Push(adjacency, seeds, seen, [], seeds, -1);
    while pending != []
      invariant Marked(adjacency, seeds, seen[..], pending) && Expanded(adjacency, seen[..], pending, -1)
      invariant forall s :: s in seeds ==> seen[s]
      decreases Unseen(seen[..]) + |pending|
    {
      pending := Expand(adjacency, seeds, seen, pending);
    }
    reached := seen[..];
    NothingMissed(adjacency, seeds, reached);
  }
}
