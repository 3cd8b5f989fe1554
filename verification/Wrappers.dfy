/** Small value types shared by every module. */
module Wrappers {

  datatype Option<+T> = None | Some(value: T) {
    function GetOr(default: T): T {
      match this
      case Some(v) => v
      case None => default
    }
  }

  /** What a service call returns: nothing on success, or the class of error
      its callers can tell apart (`errors.Is` on the two sentinel errors). */
  datatype Outcome = Ok | NotFound | BusinessRule | Internal

  /** The state after all `actions`, taken in order. */
  ghost function Fold<S, A>(step: (S, A) -> S, s: S, actions: seq<A>): S
    decreases |actions|
  {
    if actions == [] then s else Fold(step, step(s, actions[0]), actions[1..])
  }

  lemma FoldOne<S, A>(step: (S, A) -> S, s: S, a: A)
    ensures Fold(step, s, [a]) == step(s, a)
  {
    assert [a][0] == a && [a][1..] == [];
    assert Fold(step, step(s, a), []) == step(s, a);
  }

  lemma FoldCons<S, A>(step: (S, A) -> S, s: S, a: A, rest: seq<A>)
    ensures Fold(step, s, [a] + rest) == Fold(step, step(s, a), rest)
  {
    assert ([a] + rest)[0] == a && ([a] + rest)[1..] == rest;
  }

  lemma {:induction false} FoldConcat<S, A>(step: (S, A) -> S, s: S, actions: seq<A>, rest: seq<A>)
    ensures Fold(step, s, actions + rest) == Fold(step, Fold(step, s, actions), rest)
    decreases |actions|
  {
    if actions == [] {
      assert actions + rest == rest;
    } else {
      FoldConcat(step, step(s, actions[0]), actions[1..], rest);
      assert (actions + rest)[1..] == actions[1..] + rest;
    }
  }

  /** Two ways of stepping that agree, action by action. */
  lemma {:induction false} FoldAgrees<S(!new), A, B>(step: (S, A) -> S, step': (S, B) -> S, s: S,
      actions: seq<A>, actions': seq<B>)
    requires |actions| == |actions'|
    requires forall i, x :: 0 <= i < |actions| ==> step(x, actions[i]) == step'(x, actions'[i])
    ensures Fold(step, s, actions) == Fold(step', s, actions')
    decreases |actions|
  {
    if actions != [] {
      FoldAgrees(step, step', step(s, actions[0]), actions[1..], actions'[1..]);
    }
  }

  /** What held before and does not hold after the actions was ended by one of them. */
  lemma {:induction false} FoldEnds<S(!new), A>(step: (S, A) -> S, holds: S -> bool, ends: A -> bool, s: S, actions: seq<A>)
    returns (i: nat)
    requires holds(s) && !holds(Fold(step, s, actions))
    requires forall k, x :: 0 <= k < |actions| && holds(x) && !ends(actions[k]) ==> holds(step(x, actions[k]))
    ensures i < |actions| && ends(actions[i])
    decreases |actions|
  {
    if ends(actions[0]) {
      i := 0;
    } else {
      var k := FoldEnds(step, holds, ends, step(s, actions[0]), actions[1..]);
      i := k + 1;
    }
  }

  /** What the actions emit, in order. */
  ghost function Log<S, A, M>(step: (S, A) -> S, emit: (S, A) -> seq<M>, s: S, actions: seq<A>): seq<M>
    decreases |actions|
  {
    if actions == [] then [] else emit(s, actions[0]) + Log(step, emit, step(s, actions[0]), actions[1..])
  }

  lemma {:induction false} LogConcat<S, A, M>(step: (S, A) -> S, emit: (S, A) -> seq<M>, s: S, actions: seq<A>, rest: seq<A>)
    ensures Log(step, emit, s, actions + rest) == Log(step, emit, s, actions) + Log(step, emit, Fold(step, s, actions), rest)
    decreases |actions|
  {
    if actions == [] {
      assert actions + rest == rest;
    } else {
      LogConcat(step, emit, step(s, actions[0]), actions[1..], rest);
      assert (actions + rest)[1..] == actions[1..] + rest;
    }
  }

  lemma LogOne<S, A, M>(step: (S, A) -> S, emit: (S, A) -> seq<M>, s: S, a: A)
    ensures Log(step, emit, s, [a]) == emit(s, a)
  {
    assert [a][0] == a && [a][1..] == [];
    assert Log(step, emit, step(s, a), []) == [];
  }

  /** Every action is fine in the state in which it is taken. */
  ghost predicate Always<S, A>(step: (S, A) -> S, fine: (S, A) -> bool, s: S, actions: seq<A>)
    decreases |actions|
  {
    actions != [] ==> fine(s, actions[0]) && Always(step, fine, step(s, actions[0]), actions[1..])
  }

  lemma {:induction false} AlwaysConcat<S, A>(step: (S, A) -> S, fine: (S, A) -> bool, s: S, actions: seq<A>, rest: seq<A>)
    ensures Always(step, fine, s, actions + rest) <==>
            Always(step, fine, s, actions) && Always(step, fine, Fold(step, s, actions), rest)
    decreases |actions|
  {
    if actions == [] {
      assert actions + rest == rest;
    } else {
      AlwaysConcat(step, fine, step(s, actions[0]), actions[1..], rest);
      assert (actions + rest)[1..] == actions[1..] + rest;
    }
  }
}
