/** Runs of any state machine whose step function says which actions a state allows. */
module Machine {
  import opened Wrappers

  /** The state after the actions in order, if each is allowed where it comes. */
  function RunOf<S, A>(step: (S, A) -> Option<S>, s: S, acts: seq<A>): Option<S>
    decreases |acts|
  {
    if acts == [] then Some(s) else
    match step(s, acts[0])
    case Some(t) => RunOf(step, t, acts[1..])
    case None => None
  }

  /** The first action of a run, and the rest. */
  lemma Splits<S, A>(step: (S, A) -> Option<S>, s: S, acts: seq<A>) returns (t: S)
    requires acts != [] && RunOf(step, s, acts).Some?
    ensures step(s, acts[0]) == Some(t) && RunOf(step, t, acts[1..]) == RunOf(step, s, acts)
  {
    t := step(s, acts[0]).value;
  }

  lemma Prepends<S, A>(step: (S, A) -> Option<S>, s: S, a: A, t: S, acts: seq<A>)
    requires step(s, a) == Some(t)
    ensures RunOf(step, s, [a] + acts) == RunOf(step, t, acts)
  {
    assert ([a] + acts)[0] == a && ([a] + acts)[1..] == acts;
  }

  lemma {:induction false} Concatenates<S, A>(step: (S, A) -> Option<S>, s: S, acts: seq<A>, more: seq<A>)
    requires RunOf(step, s, acts).Some?
    ensures RunOf(step, s, acts + more) == RunOf(step, RunOf(step, s, acts).value, more)
    decreases |acts|
  {
    if acts == [] {
      assert acts + more == more;
    } else {
      var t := Splits(step, s, acts);
      Concatenates(step, t, acts[1..], more);
      Prepends(step, s, acts[0], t, acts[1..] + more);
      assert acts + more == [acts[0]] + (acts[1..] + more);
    }
  }

  // ── What a run can lead to ───────────────────────────────────

  ghost predicate LedBy<S, A>(step: (S, A) -> Option<S>, s: S, t: S, acts: seq<A>) { RunOf(step, s, acts) == Some(t) }

  /** Some run goes from `s` to `t`. */
  ghost predicate Leads<S, A(!new)>(step: (S, A) -> Option<S>, s: S, t: S) { exists acts :: LedBy(step, s, t, acts) }

  lemma Stays<S, A(!new)>(step: (S, A) -> Option<S>, s: S)
    ensures Leads(step, s, s)
  {
    assert LedBy(step, s, s, []);
  }

  lemma Then<S, A(!new)>(step: (S, A) -> Option<S>, s: S, t: S, a: A, u: S)
    requires Leads(step, s, t) && step(t, a) == Some(u)
    ensures Leads(step, s, u)
  {
    var acts :| LedBy(step, s, t, acts);
    Concatenates(step, s, acts, [a]);
    Prepends(step, t, a, u, []);
    assert [a] + [] == [a];
    assert LedBy(step, s, u, acts + [a]);
  }

  lemma Chain<S, A(!new)>(step: (S, A) -> Option<S>, s: S, t: S, u: S)
    requires Leads(step, s, t) && Leads(step, t, u)
    ensures Leads(step, s, u)
  {
    var acts :| LedBy(step, s, t, acts);
    var more :| LedBy(step, t, u, more);
    Concatenates(step, s, acts, more);
    assert LedBy(step, s, u, acts + more);
  }
}
