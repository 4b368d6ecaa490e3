/**
 Runs of a state machine whose housekeeping may happen before any operation, and the two ways of
 reasoning about them that the purge needs: a simulation between the run with the sweeps and the
 run without, and an answer that can be given only once.
 */
module Sweeping {

  /** One operation on the state at an instant, with its answer; and the housekeeping at an instant. */
  datatype Machine<!S, !I, !O> = Machine(apply: (S, I, int) -> (S, O), sweep: (S, int) -> S)

  /** An operation `after` some seconds, preceded or not by a sweep. */
  datatype Timed<I> = Timed(after: nat, sweep: bool, op: I)

  /** The instant of the `i`th operation. */
  function InstantOf<I>(now: int, steps: seq<Timed<I>>, i: nat): int
    requires i < |steps|
    decreases i
  {
    if i == 0 then now + steps[0].after else InstantOf(now + steps[0].after, steps[1..], i - 1)
  }

  /** The answer of the `i`th operation, in the run with the sweeps or the one without. */
  function Answer<S, I, O>(m: Machine<S, I, O>, s: S, now: int, steps: seq<Timed<I>>, sweeping: bool, i: nat): O
    requires i < |steps|
    decreases i
  {
    var at := now + steps[0].after;
    var ready := if sweeping && steps[0].sweep then m.sweep(s, at) else s;
    var (s', answer) := m.apply(ready, steps[0].op, at);
    if i == 0 then answer else Answer(m, s', at, steps[1..], sweeping, i - 1)
  }

  /** A relation that time, sweeps on the right and every operation keep, the answers being the same. */
  ghost predicate Simulation<S(!new), I(!new), O>(
      m: Machine<S, I, O>, alike: (S, S, int) -> bool, same: (O, O, int) -> bool)
  {
    && (forall s, p, now, later :: alike(s, p, now) && now <= later ==> alike(s, p, later))
    && (forall s, p, now :: alike(s, p, now) ==> alike(s, m.sweep(p, now), now))
    && (forall s, p, op, now :: alike(s, p, now) ==>
          && alike(m.apply(s, op, now).0, m.apply(p, op, now).0, now)
          && same(m.apply(s, op, now).1, m.apply(p, op, now).1, now))
  }

  lemma {:induction false} SweepsAreInvisible<S(!new), I(!new), O>(
      m: Machine<S, I, O>, alike: (S, S, int) -> bool, same: (O, O, int) -> bool, s: S, p: S, now: int,
      steps: seq<Timed<I>>, i: nat)
    requires Simulation(m, alike, same) && alike(s, p, now) && i < |steps|
    ensures same(Answer(m, s, now, steps, false, i), Answer(m, p, now, steps, true, i), InstantOf(now, steps, i))
    decreases i
  {
    var at, op := now + steps[0].after, steps[0].op;
    var ready := if steps[0].sweep then m.sweep(p, at) else p;
    assert alike(s, p, at);
    assert alike(s, ready, at);
    if i > 0 {
      SweepsAreInvisible(m, alike, same, m.apply(s, op, at).0, m.apply(ready, op, at).0, at, steps[1..], i - 1);
    }
  }

  /** Once `op` has answered something else than `no`, the state is `spent`, and stays so, and `op` answers `no`. */
  ghost predicate OnlyOnce<S(!new), I(!new), O>(m: Machine<S, I, O>, fine: S -> bool, spent: S -> bool, op: I, no: O) {
    && (forall s, now :: fine(s) ==> fine(m.sweep(s, now)))
    && (forall s, now :: spent(s) ==> spent(m.sweep(s, now)))
    && (forall s, any, now :: fine(s) ==> fine(m.apply(s, any, now).0))
    && (forall s, any, now :: spent(s) ==> spent(m.apply(s, any, now).0))
    && (forall s, now :: fine(s) && m.apply(s, op, now).1 != no ==> spent(m.apply(s, op, now).0))
    && (forall s, now :: spent(s) ==> m.apply(s, op, now).1 == no)
  }

  lemma {:induction false} SpentAnswersNo<S(!new), I(!new), O>(
      m: Machine<S, I, O>, fine: S -> bool, spent: S -> bool, op: I, no: O, s: S, now: int, steps: seq<Timed<I>>,
      sweeping: bool, j: nat)
    requires OnlyOnce(m, fine, spent, op, no) && spent(s) && j < |steps| && steps[j].op == op
    ensures Answer(m, s, now, steps, sweeping, j) == no
    decreases j
  {
    var at := now + steps[0].after;
    var ready := if sweeping && steps[0].sweep then m.sweep(s, at) else s;
    assert spent(ready);
    if j > 0 {
      SpentAnswersNo(m, fine, spent, op, no, m.apply(ready, steps[0].op, at).0, at, steps[1..], sweeping, j - 1);
    }
  }

  lemma {:induction false} AnswersOnce<S(!new), I(!new), O>(
      m: Machine<S, I, O>, fine: S -> bool, spent: S -> bool, op: I, no: O, s: S, now: int, steps: seq<Timed<I>>,
      sweeping: bool, i: nat, j: nat)
    requires OnlyOnce(m, fine, spent, op, no) && fine(s) && i < j < |steps| && steps[i].op == op && steps[j].op == op
    requires Answer(m, s, now, steps, sweeping, i) != no
    ensures Answer(m, s, now, steps, sweeping, j) == no
    decreases i
  {
    var at := now + steps[0].after;
    var ready := if sweeping && steps[0].sweep then m.sweep(s, at) else s;
    var s' := m.apply(ready, steps[0].op, at).0;
    assert fine(ready);
    if i > 0 {
      AnswersOnce(m, fine, spent, op, no, s', at, steps[1..], sweeping, i - 1, j - 1);
    } else {
      SpentAnswersNo(m, fine, spent, op, no, s', at, steps[1..], sweeping, j - 1);
    }
  }
}
