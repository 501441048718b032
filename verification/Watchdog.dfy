// The shell's watchdog over the backend process, and the bound it puts on
// restarts.

module Watchdog {
  const MAX_RESTARTS := 3
  const RESTART_WINDOW := 120.0

  // One pass of the loop: what it finds, at a reading of the monotonic clock.
  datatype Poll = Poll(now: real, stopped: bool, quit: bool, alive: bool)

  datatype Verdict = Running | Stopped | Quit | OutOfBudget(at: real)

  predicate Monotone(polls: seq<Poll>) {
    forall i, j :: 0 <= i < j < |polls| ==> polls[i].now <= polls[j].now
  }

  // How many attempts at the end follow each other within the window.
  function Burst(attempts: seq<real>): (n: nat)
    ensures n <= |attempts| && (attempts != [] ==> n >= 1)
  {
    var k := |attempts|;
    if k < 2 then k
    else if attempts[k - 1] - attempts[k - 2] > RESTART_WINDOW then 1
    else 1 + Burst(attempts[..k - 1])
  }

  // The times the backend was found dead, one for each pass that looked.
  function Deaths(polls: seq<Poll>): seq<real> {
    if polls == [] then []
    else
      var n := |polls| - 1;
      Deaths(polls[..n]) + if polls[n].alive then [] else [polls[n].now]
  }

  predicate Ascending(ts: seq<real>) {
    forall i, j :: 0 <= i < j < |ts| ==> ts[i] <= ts[j]
  }

  // Two of the four attempts from `i` on are further apart than the window.
  predicate GapAt(attempts: seq<real>, i: nat)
    requires i + 3 < |attempts|
  {
    || attempts[i + 1] - attempts[i] > RESTART_WINDOW
    || attempts[i + 2] - attempts[i + 1] > RESTART_WINDOW
    || attempts[i + 3] - attempts[i + 2] > RESTART_WINDOW
  }

  // Any four attempts in a row hold such a gap.
  predicate Bounded(attempts: seq<real>) {
    forall i: nat :: i + 3 < |attempts| ==> GapAt(attempts, i)
  }

  // A death that the budget does not cover.
  predicate Exhausted(attempts: seq<real>, now: real) {
    |attempts| >= 3 && now - attempts[|attempts| - 1] <= RESTART_WINDOW
    && attempts[|attempts| - 1] - attempts[|attempts| - 2] <= RESTART_WINDOW
    && attempts[|attempts| - 2] - attempts[|attempts| - 3] <= RESTART_WINDOW
  }

  lemma BurstExtends(attempts: seq<real>, now: real)
    ensures Burst(attempts + [now])
         == if attempts == [] || now - attempts[|attempts| - 1] > RESTART_WINDOW then 1 else 1 + Burst(attempts)
  {
    assert (attempts + [now])[..|attempts|] == attempts;
  }

  // A burst of three is what it takes to run out.
  lemma BurstOfThree(attempts: seq<real>, now: real)
    requires Burst(attempts) <= 3
    ensures Exhausted(attempts, now) <==>
      Burst(attempts) == 3 && now - attempts[|attempts| - 1] <= RESTART_WINDOW
  {
    var k := |attempts|;
    if k >= 3 {
      assert attempts[..k - 1][..k - 2] == attempts[..k - 2];
    }
  }

  lemma BoundedExtends(attempts: seq<real>, now: real)
    requires Bounded(attempts) && !Exhausted(attempts, now)
    ensures Bounded(attempts + [now])
  {
    var longer := attempts + [now];
    forall i: nat | i + 3 < |longer|
      ensures GapAt(longer, i)
    {
      if i + 3 < |attempts| {
        GapKept(attempts, now, i);
      }
    }
  }

  lemma GapKept(attempts: seq<real>, now: real, i: nat)
    requires i + 3 < |attempts| && GapAt(attempts, i)
    ensures GapAt(attempts + [now], i)
  {}

  // The times seen so far, all of them before `now`.
  predicate Before(attempts: seq<real>, now: real) {
    forall k :: 0 <= k < |attempts| ==> attempts[k] <= now
  }

  lemma AscendingExtends(attempts: seq<real>, now: real)
    requires Ascending(attempts) && Before(attempts, now)
    ensures Ascending(attempts + [now]) && Before(attempts + [now], now)
  {}

  lemma DeathsStep(polls: seq<Poll>, i: nat)
    requires i < |polls|
    ensures Deaths(polls[..i + 1]) == Deaths(polls[..i]) + if polls[i].alive then [] else [polls[i].now]
  {
    assert polls[..i + 1][..i] == polls[..i];
  }

  lemma BeforeNext(attempts: seq<real>, polls: seq<Poll>, i: nat)
    requires Monotone(polls) && i < |polls| && Before(attempts, polls[i].now)
    ensures i + 1 < |polls| ==> Before(attempts, polls[i + 1].now)
  {
    if i + 1 < |polls| {
      assert polls[i].now <= polls[i + 1].now;
    }
  }

  // The polls answered so far let the loop go on.
  predicate Quiet(polls: seq<Poll>, n: nat)
    requires n <= |polls|
  {
    forall k :: 0 <= k < n ==> !polls[k].stopped && !polls[k].quit
  }

  lemma QuietStep(polls: seq<Poll>, n: nat)
    requires n < |polls| && Quiet(polls, n) && !polls[n].stopped && !polls[n].quit
    ensures Quiet(polls, n + 1)
  {}

  lemma NothingYet(polls: seq<Poll>)
    ensures Deaths(polls[..0]) == [] && Bounded([]) && Ascending([]) && Quiet(polls, 0)
    ensures polls != [] ==> Before([], polls[0].now)
  {}

  // A death the budget covers: the counters afterwards.
  lemma Attempt(attempts: seq<real>, now: real)
    requires Burst(attempts) <= 3 && !Exhausted(attempts, now) && Bounded(attempts)
    ensures Bounded(attempts + [now])
    ensures var isolated := attempts == [] || now - attempts[|attempts| - 1] > RESTART_WINDOW;
            Burst(attempts + [now]) == (if isolated then 0 else Burst(attempts)) + 1 <= 3
  {
    BoundedExtends(attempts, now);
    BurstExtends(attempts, now);
    BurstOfThree(attempts, now);
  }

  // `_watchdog`, over the polls it makes: which deaths it answers with a
  // restart, and whether it gives up. It answers every death it sees, in
  // order, until it is stopped, told to quit, or out of budget.
  method Watch(polls: seq<Poll>) returns (attempts: seq<real>, verdict: Verdict, ghost seen: nat)
    requires Monotone(polls)
    ensures seen <= |polls| && attempts == Deaths(polls[..seen]) && Quiet(polls, seen)
    ensures Bounded(attempts) && Ascending(attempts)
    ensures verdict.Running? ==> seen == |polls|
    ensures verdict.Stopped? ==> seen < |polls| && polls[seen].stopped
    ensures verdict.Quit? ==> seen < |polls| && !polls[seen].stopped && polls[seen].quit
    ensures verdict.OutOfBudget? <==>
              seen < |polls| && !polls[seen].stopped && !polls[seen].quit && !polls[seen].alive
              && Exhausted(attempts, polls[seen].now)
    ensures verdict.OutOfBudget? ==> verdict.at == polls[seen].now
  {
    hide Deaths, Burst, Bounded, Ascending, Exhausted, Before, Quiet, Monotone;
    attempts, seen := [], 0;
    var restarts := 0;
    var lastRestart := 0.0;
    NothingYet(polls);
    assert Burst(attempts) == 0 by { EmptyBurst(); }
    for i := 0 to |polls|
      invariant seen == i && attempts == Deaths(polls[..i]) && Quiet(polls, i)
      invariant attempts != [] ==> lastRestart == attempts[|attempts| - 1]
      invariant restarts == Burst(attempts) <= MAX_RESTARTS
      invariant Bounded(attempts) && Ascending(attempts)
      invariant i < |polls| ==> Before(attempts, polls[i].now)
    {
      var poll := polls[i];
      if poll.stopped { return attempts, Stopped, i; }
      if poll.quit { return attempts, Quit, i; }
      QuietStep(polls, i);
      DeathsStep(polls, i);
      if !poll.alive {
        BurstOfThree(attempts, poll.now);
        if poll.now - lastRestart > RESTART_WINDOW { restarts := 0; }
        if restarts >= MAX_RESTARTS { return attempts, OutOfBudget(poll.now), i; }
        Attempt(attempts, poll.now);
        AscendingExtends(attempts, poll.now);
        restarts := restarts + 1;
        lastRestart := poll.now;
        attempts := attempts + [poll.now];
      }
      BeforeNext(attempts, polls, i);
      seen := i + 1;
    }
    assert polls[..|polls|] == polls;
    verdict := Running;
  }

  lemma EmptyBurst()
    ensures Burst([]) == 0
  {}

  // So attempts three places apart are further apart than the window: no
  // window of that length holds more than three.
  lemma ThreePerWindow(attempts: seq<real>, i: nat, j: nat)
    requires Bounded(attempts) && Ascending(attempts) && i + 3 <= j < |attempts|
    ensures attempts[j] - attempts[i] > RESTART_WINDOW
  {
    assert GapAt(attempts, i);
    assert attempts[i] <= attempts[i + 1] <= attempts[i + 2] <= attempts[i + 3];
    assert i + 3 == j || attempts[i + 3] <= attempts[j];
  }
}
