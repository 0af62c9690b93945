/** States that lead to one another by some possible run. */
module Reachability {
  import opened ControlPlane

  ghost predicate RunsTo(cfg: Config, s: State, run: seq<Action>, s': State) {
    Possible(cfg, s, run) && Exec(cfg, s, run) == s'
  }

  ghost predicate Reaches(cfg: Config, s: State, s': State) {
    exists run :: RunsTo(cfg, s, run, s')
  }

  lemma {:induction false} RunsJoin(cfg: Config, s: State, run: seq<Action>, more: seq<Action>)
    requires Possible(cfg, s, run) && Possible(cfg, Exec(cfg, s, run), more)
    ensures Possible(cfg, s, run + more) && Exec(cfg, s, run + more) == Exec(cfg, Exec(cfg, s, run), more)
    decreases run
  {
    hide Next, Enabled;
    if run == [] {
      assert run + more == more;
    } else {
      RunsJoin(cfg, Next(cfg, s, run[0]), run[1..], more);
      assert (run + more)[1..] == run[1..] + more;
    }
  }

  lemma ReachesItself(cfg: Config, s: State)
    ensures Reaches(cfg, s, s)
  {
    hide Next, Enabled;
    assert RunsTo(cfg, s, [], s);
  }

  lemma ReachesByStep(cfg: Config, s: State, a: Action)
    requires Enabled(cfg, s, a)
    ensures Reaches(cfg, s, Next(cfg, s, a))
  {
    var run := [a];
    assert run[0] == a && run[1..] == [];
    assert Exec(cfg, Next(cfg, s, a), []) == Next(cfg, s, a);
    assert Exec(cfg, s, run) == Exec(cfg, Next(cfg, s, run[0]), run[1..]);
    assert RunsTo(cfg, s, run, Next(cfg, s, a));
  }

  lemma ReachesOn(cfg: Config, s: State, s': State, s'': State)
    requires Reaches(cfg, s, s') && Reaches(cfg, s', s'')
    ensures Reaches(cfg, s, s'')
  {
    hide Next, Enabled;
    var run :| RunsTo(cfg, s, run, s');
    var more :| RunsTo(cfg, s', more, s'');
    RunsJoin(cfg, s, run, more);
    assert RunsTo(cfg, s, run + more, s'');
  }
}
