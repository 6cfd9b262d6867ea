/**
 What a process does not decide itself: whether a statement, a send or a commit goes through,
 and whether a wait is cut short. The n-th such step has its fate given in advance, so that an
 answer can be traced to the step that caused it.
 */
module Environments {
  datatype Fate =
    | Goes
    | Fails      // not done, and reported as failed
    | Unheard    // done, but reported as failed
    | Overtaken  // refused, because another writer was first
    | NotReady   // refused for now

  /** How many steps have been taken, and how many waits. */
  datatype Moment = Moment(steps: nat, waits: nat)

  class Environment {
    const fate: nat -> Fate
    const ends: nat -> bool  // the caller's context ends during that wait
    var steps: nat
    var waits: nat

    constructor (fate: nat -> Fate, ends: nat -> bool)
      ensures this.fate == fate && this.ends == ends && steps == 0 && waits == 0
    {
      this.fate, this.ends, steps, waits := fate, ends, 0, 0;
    }

    function Now(): Moment
      reads this
    {
      Moment(steps, waits)
    }

    predicate LaterThan(m: Moment)
      reads this
    {
      m.steps <= steps && m.waits <= waits
    }

    method Try() returns (f: Fate)
      modifies this`steps
      ensures steps == old(steps) + 1 && f == fate(old(steps))
    {
      f := fate(steps);
      steps := steps + 1;
    }

    method Wait() returns (ended: bool)
      modifies this`waits
      ensures waits == old(waits) + 1 && ended == ends(old(waits))
    {
      ended := ends(waits);
      waits := waits + 1;
    }

    /** Every step since then went through. */
    ghost predicate SmoothSince(m: Moment)
      reads this
    {
      m.steps <= steps && forall n :: m.steps <= n < steps ==> fate(n) == Goes
    }

    /** The last step did not go through, every one before it since then did. */
    ghost predicate BrokeSince(m: Moment)
      reads this
    {
      m.steps < steps && fate(steps - 1) != Goes && forall n :: m.steps <= n < steps - 1 ==> fate(n) == Goes
    }

    /** Some wait since then was cut short. */
    ghost predicate EndedSince(m: Moment)
      reads this
    {
      exists w :: m.waits <= w < waits && ends(w)
    }

    /** Something since then did not go as it should. */
    ghost predicate TroubledSince(m: Moment)
      reads this
    {
      (exists n :: m.steps <= n < steps && fate(n) != Goes) || EndedSince(m)
    }
  }

  /** Trouble since some moment is trouble since any earlier one. */
  lemma TroubleSinceEarlier(env: Environment, earlier: Moment, later: Moment)
    requires env.TroubledSince(later) && earlier.steps <= later.steps && earlier.waits <= later.waits
    ensures env.TroubledSince(earlier)
  {
    if env.EndedSince(later) { assert env.EndedSince(earlier); }
  }

  /** How many of the steps were overtaken. */
  function Overtakings(fate: nat -> Fate, from: nat, until: nat): nat
    decreases until
  {
    if until <= from then 0
    else Overtakings(fate, from, until - 1) + (if fate(until - 1) == Overtaken then 1 else 0)
  }

  lemma {:induction false} NoneOvertaken(fate: nat -> Fate, from: nat, mid: nat, until: nat)
    requires from <= mid <= until && forall n :: mid <= n < until ==> fate(n) == Goes
    ensures Overtakings(fate, from, until) == Overtakings(fate, from, mid)
    decreases until
  {
    if mid < until { NoneOvertaken(fate, from, mid, until - 1); }
  }
}
