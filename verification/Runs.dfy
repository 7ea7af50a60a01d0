/** Machines whose steps are single durable writes, and their runs.

    A run may stop after any step, so a statement about every run is also a
    statement about every point at which a process can be killed. */
module Runs {

  datatype Machine<!D, !S> = Machine(start: D, enabled: (D, S) -> bool, apply: (D, S) -> D)

  ghost function After<D, S>(m: Machine<D, S>, log: seq<S>): D {
    if log == [] then m.start
    else m.apply(After(m, log[..|log| - 1]), log[|log| - 1])
  }

  ghost predicate IsRun<D, S>(m: Machine<D, S>, log: seq<S>) {
    log == [] ||
    (IsRun(m, log[..|log| - 1]) && m.enabled(After(m, log[..|log| - 1]), log[|log| - 1]))
  }

  lemma Extend<D, S>(m: Machine<D, S>, log: seq<S>, s: S)
    requires IsRun(m, log) && m.enabled(After(m, log), s)
    ensures IsRun(m, log + [s]) && After(m, log + [s]) == m.apply(After(m, log), s)
  {
    assert (log + [s])[..|log + [s]| - 1] == log;
  }

  lemma {:induction false} Prefix<D, S>(m: Machine<D, S>, log: seq<S>, more: seq<S>)
    requires IsRun(m, log + more)
    ensures IsRun(m, log)
  {
    if more == [] {
      assert log + more == log;
    } else {
      assert (log + more)[..|log + more| - 1] == log + more[..|more| - 1];
      Prefix(m, log, more[..|more| - 1]);
    }
  }

  /** An inductive property of the steps holds after every run. */
  lemma {:induction false} Inductive<D(!new), S(!new)>(m: Machine<D, S>, inv: D -> bool, log: seq<S>)
    requires inv(m.start)
    requires forall d, s :: inv(d) && m.enabled(d, s) ==> inv(m.apply(d, s))
    requires IsRun(m, log)
    ensures inv(After(m, log))
  {
    if log != [] {
      Inductive(m, inv, log[..|log| - 1]);
    }
  }

  // --------------------------------------------------------------- scripts

  /** A concrete run, each step with the state it leaves. */
  function StepsOf<D, S>(script: seq<(S, D)>): (steps: seq<S>) {
    seq(|script|, i requires 0 <= i < |script| => script[i].0)
  }

  ghost predicate Plays<D, S>(m: Machine<D, S>, from: D, script: seq<(S, D)>) {
    forall i :: 0 <= i < |script| ==> PlaysAt(m, from, script, i)
  }

  ghost predicate PlaysAt<D, S>(m: Machine<D, S>, from: D, script: seq<(S, D)>, i: nat)
    requires i < |script|
  {
    var before := if i == 0 then from else script[i - 1].1;
    m.enabled(before, script[i].0) && m.apply(before, script[i].0) == script[i].1
  }

  /** A script played after a run makes a longer run. */
  lemma {:induction false} Play<D, S>(m: Machine<D, S>, log: seq<S>, script: seq<(S, D)>)
    requires IsRun(m, log) && Plays(m, After(m, log), script)
    ensures IsRun(m, log + StepsOf(script))
    ensures script != [] ==> After(m, log + StepsOf(script)) == script[|script| - 1].1
  {
    if script == [] {
      assert log + StepsOf(script) == log;
    } else {
      var from, init := After(m, log), script[..|script| - 1];
      forall i | 0 <= i < |init| ensures PlaysAt(m, from, init, i) {
        assert PlaysAt(m, from, script, i);
      }
      Play(m, log, init);
      assert PlaysAt(m, from, script, |script| - 1);
      if init == [] { assert log + StepsOf(init) == log; }
      Extend(m, log + StepsOf(init), script[|script| - 1].0);
      assert log + StepsOf(script) == log + StepsOf(init) + [script[|script| - 1].0];
    }
  }
}
