/**
 'runQueue': jobs until the queue is empty, then the check of the rejection list, and again while
 hook calls during the check have queued jobs.  What user code and the hook do is given turn by turn.
 */
module PromiseRunner {
  import opened Wrappers
  import opened PromiseMachine
  import opened PromiseTracker
  import opened PromiseHooks
  import opened PromiseReports

  /** The turns taken from 'w' lead to 'r'. */
  ghost predicate Ran(w: World, taken: seq<Turn>, r: World)
  {
    WellFormed(w.s) && CanTake(w, taken) && r == Take(w, taken) && Good(r, 0, {})
  }

  lemma {:induction false} TakeOneMore(w: World, taken: seq<Turn>, t: Turn)
    requires WellFormed(w.s) && CanTake(w, taken) && Enabled(Take(w, taken).s, t.a)
    ensures CanTake(w, taken + [t]) && Take(w, taken + [t]) == StepWith(Take(w, taken), t.a, t.hooks)
    decreases |taken|
  {
    hide StepWith, Enabled, WellFormed;
    if taken == [] {
      OneTurn(w, t);
      assert taken + [t] == [t];
    } else {
      TakeOneMore(StepWith(w, taken[0].a, taken[0].hooks), taken[1..], t);
      assert (taken + [t])[1..] == taken[1..] + [t];
    }
  }

  lemma RanOneMore(w: World, taken: seq<Turn>, r: World, t: Turn)
    requires Ran(w, taken, r) && Enabled(r.s, t.a)
    ensures Ran(w, taken + [t], StepWith(r, t.a, t.hooks))
  {
    assert WellFormed(r.s);
    hide StepWith, Enabled, WellFormed, Good, CanTake, Take;
    TakeOneMore(w, taken, t);
    StepGood(r, t.a, t.hooks);
  }

  /** Jobs until the queue is empty; a turn gives the hook calls of the runner's own steps, and the next
      action of user code while a call is open. */
  method RunJobs(ghost w: World, turns: seq<Turn>, from: World, taken: seq<Turn>)
    returns (r: World, taken': seq<Turn>, stuck: bool)
    requires Ran(w, taken, from) && |taken| <= |turns|
    ensures Ran(w, taken', r) && |taken| <= |taken'| <= |turns|
    ensures !stuck ==> r.s.frames == [] && r.s.core.queue == []
    ensures stuck ==> |taken'| == |turns| || !Enabled(r.s, turns[|taken'|].a)
  {
    hide StepWith, Ran, Enabled;
    r, taken', stuck := from, taken, false;
    assert WellFormed(r.s) by { RanWellFormed(w, taken', r); }
    while r.s.frames != [] || r.s.core.queue != []
      invariant WellFormed(r.s) && Ran(w, taken', r) && |taken| <= |taken'| <= |turns|
      decreases |turns| - |taken'|
    {
      if |taken'| == |turns| { return r, taken', true; }
      var t := turns[|taken'|];
      if r.s.frames == [] {
        t := Turn(RunEntry, t.hooks);
        RunnerEnabled(r.s);
      } else if !Enabled(r.s, t.a) {
        return r, taken', true;
      }
      RanOneMore(w, taken', r, t);
      r, taken' := StepWith(r, t.a, t.hooks), taken' + [t];
    }
  }

  lemma RanWellFormed(w: World, taken: seq<Turn>, r: World)
    requires Ran(w, taken, r)
    ensures WellFormed(w.s) && CanTake(w, taken) && r == Take(w, taken) && WellFormed(r.s) && Good(r, 0, {})
  {
  }

  lemma RunnerEnabled(s: State)
    requires s.frames == []
    ensures s.core.queue != [] ==> Enabled(s, RunEntry)
    ensures s.core.queue == [] ==> Enabled(s, Check)
  {
  }

  /** The reports of exactly the promises that were never caught are up to date. */
  ghost predicate Checked(w: World)
  {
    forall p :: 0 <= p < |w.s.core.promises| ==>
      (UpToDate(w.s.core.promises[p], Reports(w.s.core.log, p), p) <==> p !in w.caught)
  }

  lemma CheckChecks(w: World, hooks: Hooks)
    requires Good(w, 0, {}) && Enabled(w.s, Check)
    ensures Checked(StepWith(w, Check, hooks))
  {
    assert WellFormed(w.s);
    var r := StepWith(w, Check, hooks);
    hide StepWith, Reports, UpToDate, Good, WellFormed;
    forall p | 0 <= p < |r.s.core.promises|
      ensures UpToDate(r.s.core.promises[p], Reports(r.s.core.log, p), p) <==> p !in r.caught
    {
      CheckedExactly(w, hooks, p);
    }
  }

  lemma NothingRan(w: World)
    requires Good(w, 0, {})
    ensures Ran(w, [], w)
  {
  }

  /** The runner returns only when the queue and the rejection list are both empty, right after a check; as
      long as it has not returned it waits for a turn that user code can take. */
  method RunQueue(w: World, turns: seq<Turn>) returns (r: World, taken: seq<Turn>, done: bool)
    requires Good(w, 0, {}) && w.s.frames == []
    ensures CanTake(w, taken) && r == Take(w, taken) && Good(r, 0, {}) && |taken| <= |turns|
    ensures done ==> r.s.frames == [] && r.s.core.queue == [] && r.s.core.potentiallyUnhandled == []
    ensures done ==> Checked(r) && taken != [] && taken[|taken| - 1].a == Check
    ensures !done ==> |taken| == |turns| || !Enabled(r.s, turns[|taken|].a)
  {
    hide StepWith, Ran, Enabled, CanTake, Take, WellFormed, Good, Checked;
    r, taken, done := w, [], false;
    NothingRan(w);
    while !done
      invariant Ran(w, taken, r) && |taken| <= |turns|
      invariant done ==> r.s.frames == [] && r.s.core.queue == [] && r.s.core.potentiallyUnhandled == []
      invariant done ==> Checked(r) && taken != [] && taken[|taken| - 1].a == Check
      decreases |turns| - |taken|
    {
      var stuck: bool;
      r, taken, stuck := RunJobs(w, turns, r, taken);
      RanWellFormed(w, taken, r);
      if stuck || |taken| == |turns| { return; }
      var t := Turn(Check, turns[|taken|].hooks);
      RunnerEnabled(r.s);
      RanOneMore(w, taken, r, t);
      CheckChecks(r, t.hooks);
      r, taken := StepWith(r, t.a, t.hooks), taken + [t];
      done := r.s.frames == [] && r.s.core.queue == [] && r.s.core.potentiallyUnhandled == [];
    }
    RanWellFormed(w, taken, r);
  }
}
