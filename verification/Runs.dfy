/** Runs of a transition system.
    Every protocol of this project is a total step function over a state: an
    action that is not enabled leaves the state alone. A run is any finite
    sequence of actions, so a statement about all runs is a statement about all
    interleavings. */
module Runs {

  /** The state after `actions` are taken in order, starting from `s`. */
  function Run<S, A>(step: (S, A) -> S, s: S, actions: seq<A>): S {
    if actions == [] then s else Run(step, step(s, actions[0]), actions[1..])
  }

  /** How often something happened that happens at most once. */
  function Once(happened: bool): nat { if happened then 1 else 0 }

  /** What every step keeps holds after every run. */
  lemma {:induction false} Invariance<S(!new), A(!new)>(step: (S, A) -> S, inv: S -> bool, s: S, actions: seq<A>)
    requires inv(s)
    requires forall t, a :: inv(t) ==> inv(step(t, a))
    ensures inv(Run(step, s, actions))
  {
    if actions != [] {
      Invariance(step, inv, step(s, actions[0]), actions[1..]);
    }
  }

  /** Running one sequence of actions and then another is running both. */
  lemma {:induction false} Compose<S, A>(step: (S, A) -> S, s: S, first: seq<A>, second: seq<A>)
    ensures Run(step, s, first + second) == Run(step, Run(step, s, first), second)
  {
    if first == [] {
      assert first + second == second;
    } else {
      assert (first + second)[1..] == first[1..] + second;
      Compose(step, step(s, first[0]), first[1..], second);
    }
  }

  /** One more action at the end of a run. */
  lemma Extend<S, A>(step: (S, A) -> S, s: S, actions: seq<A>, a: A)
    ensures Run(step, s, actions + [a]) == step(Run(step, s, actions), a)
  {
    Compose(step, s, actions, [a]);
    assert [a][1..] == [];
    assert Run(step, Run(step, s, actions), [a]) == Run(step, step(Run(step, s, actions), a), []);
  }

  /** Some run leads from `s` to `t`. */
  ghost predicate Reaches<S, A(!new)>(step: (S, A) -> S, s: S, t: S) {
    exists actions: seq<A> :: Run(step, s, actions) == t
  }

  lemma ReachesSelf<S, A(!new)>(step: (S, A) -> S, s: S)
    ensures Reaches(step, s, s)
  {
    assert Run(step, s, []) == s;
  }

  lemma ReachesNext<S, A(!new)>(step: (S, A) -> S, s: S, t: S, a: A)
    requires Reaches(step, s, t)
    ensures Reaches(step, s, step(t, a))
  {
    var actions :| Run(step, s, actions) == t;
    Extend(step, s, actions, a);
  }
}
