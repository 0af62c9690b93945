/** Repeating a step any number of times. */
module Paths {

  function Repeated<S>(step: S -> S, s: S, n: nat): S {
    if n == 0 then s else Repeated(step, step(s), n - 1)
  }

  /** Some number of steps lead from one state to the other. */
  ghost predicate Leads<S>(step: S -> S, s: S, s': S) {
    exists n: nat :: Repeated(step, s, n) == s'
  }

  lemma {:induction false} RepeatedOn<S>(step: S -> S, s: S, n: nat, k: nat)
    ensures Repeated(step, Repeated(step, s, n), k) == Repeated(step, s, n + k)
    decreases n
  {
    if n > 0 { RepeatedOn(step, step(s), n - 1, k); }
  }

  lemma LeadsToItself<S>(step: S -> S, s: S)
    ensures Leads(step, s, s)
  {
    assert Repeated(step, s, 0) == s;
  }

  lemma LeadsByStep<S>(step: S -> S, s: S, s': S)
    requires s' == step(s)
    ensures Leads(step, s, s')
  {
    assert Repeated(step, s, 1) == Repeated(step, step(s), 0);
  }

  lemma LeadsOn<S>(step: S -> S, s: S, s': S, s'': S)
    requires Leads(step, s, s') && Leads(step, s', s'')
    ensures Leads(step, s, s'')
  {
    var n: nat :| Repeated(step, s, n) == s';
    var k: nat :| Repeated(step, s', k) == s'';
    RepeatedOn(step, s, n, k);
  }

  /** Steps from a state at rest lead nowhere else, so every way of getting to rest ends in the
      same state. */
  lemma {:induction false} RestIsUnique<S>(step: S -> S, s: S, a: S, b: S)
    requires Leads(step, s, a) && Leads(step, s, b) && step(a) == a && step(b) == b
    ensures a == b
  {
    var n: nat :| Repeated(step, s, n) == a;
    var k: nat :| Repeated(step, s, k) == b;
    if n <= k {
      RepeatedOn(step, s, n, k - n);
      Rests(step, a, k - n);
    } else {
      RepeatedOn(step, s, k, n - k);
      Rests(step, b, n - k);
    }
  }

  lemma {:induction false} Rests<S>(step: S -> S, s: S, n: nat)
    requires step(s) == s
    ensures Repeated(step, s, n) == s
  {
    if n > 0 { Rests(step, s, n - 1); }
  }
}
