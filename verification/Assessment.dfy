/** The runner's wait for a stable assessment. Times are whole seconds of the monotone clock. */
module Assessment {
  import opened Wrappers

  const REVISION_GRACE := 300
  const EXTENSION := 60
  const PAUSE := 5

  /** The statuses that end an assessment, the one that is running, and any other. */
  datatype Status = Terminal | Running | Elsewhere

  /** One read of the investigation: whether its alerts contain the target incident and whether that incident
      is primary. */
  datatype Reading = Reading(status: Status, revision: Option<string>, containsTarget: bool, targetPrimary: bool)

  /** When the loop guard and the two extension checks of an iteration read the clock. */
  datatype Times = Times(guard: int, atRevision: int, atStatus: int)

  /** Every iteration takes time, and sleeps at least five seconds before the next. */
  ghost predicate ClockAdvances(times: nat -> Times, started: int) {
    && started <= times(0).guard
    && forall n: nat ::
         times(n).guard <= times(n).atRevision <= times(n).atStatus && times(n).atStatus + 5 <= times(n + 1).guard
  }

  predicate Exact(r: Reading) {
    r.status.Terminal? && r.containsTarget && r.targetPrimary
  }

  predicate Truthy(revision: Option<string>) {
    revision.Some? && revision.value != ""
  }

  /** Read `n` may be accepted: any terminal read, or the second of two exact reads of one revision. */
  predicate Stable(seen: nat -> Reading, n: nat, allowRetained: bool) {
    if allowRetained then seen(n).status.Terminal?
    else
      && n > 0 && Exact(seen(n)) && Exact(seen(n - 1))
      && Truthy(seen(n).revision) && seen(n).revision == seen(n - 1).revision
  }

  function Extended(deadline: int, latest: int, now: int): int {
    var wanted := if deadline < now + EXTENSION then now + EXTENSION else deadline;
    if wanted > latest then latest else wanted
  }

  predicate RevisionChanged(seen: nat -> Reading, n: nat) {
    n > 0 && seen(n - 1).revision.Some? && seen(n).revision != seen(n - 1).revision
  }

  predicate StartedRunning(seen: nat -> Reading, n: nat) {
    seen(n).status.Running? && (n > 0 ==> !seen(n - 1).status.Running?)
  }

  /** The deadline that the guard before read `n` compares with. */
  function Deadline(seen: nat -> Reading, times: nat -> Times, first: int, allowRetained: bool, n: nat): int {
    if n == 0 then first
    else
      var d := Deadline(seen, times, first, allowRetained, n - 1);
      if allowRetained then d
      else
        var revised := if RevisionChanged(seen, n - 1)
            then Extended(d, first + REVISION_GRACE, times(n - 1).atRevision) else d;
        if StartedRunning(seen, n - 1) then Extended(revised, first + REVISION_GRACE, times(n - 1).atStatus)
            else revised
  }

  datatype Outcome = Accepted(read: nat) | TimedOut(polls: nat)

  /** Read `n` is made in time and is not the last. */
  predicate GoesOn(seen: nat -> Reading, times: nat -> Times, first: int, allowRetained: bool, n: nat) {
    times(n).guard < Deadline(seen, times, first, allowRetained, n) && !Stable(seen, n, allowRetained)
  }

  /** The wait went on up to `n` and ended there: accepted if in time, otherwise timed out. */
  ghost predicate IsOutcome(seen: nat -> Reading, times: nat -> Times, first: int, allowRetained: bool,
          outcome: Outcome) {
    var n := if outcome.Accepted? then outcome.read else outcome.polls;
    && (forall m: nat | m < n :: GoesOn(seen, times, first, allowRetained, m))
    && !GoesOn(seen, times, first, allowRetained, n)
    && (outcome.Accepted? <==> times(n).guard < Deadline(seen, times, first, allowRetained, n))
  }

  /** The deadline only moves later, and never past its grace. */
  lemma {:induction false} DeadlineBound(seen: nat -> Reading, times: nat -> Times, first: int, allowRetained: bool,
          n: nat)
    ensures first <= Deadline(seen, times, first, allowRetained, n) <= first + REVISION_GRACE
    ensures n > 0 ==>
              Deadline(seen, times, first, allowRetained, n - 1) <= Deadline(seen, times, first, allowRetained, n)
    ensures allowRetained ==> Deadline(seen, times, first, allowRetained, n) == first
  {
    if n > 0 {
      DeadlineBound(seen, times, first, allowRetained, n - 1);
    }
  }

  // ----- What ends a wait -----

  /** A terminal read that contains the target as primary, of some revision. */
  ghost predicate Settled(r: Reading) {
    r.status == Terminal && r.containsTarget && r.targetPrimary && r.revision != None && r.revision != Some("")
  }

  /** Read `m` ends the wait: the second of two settled reads of one revision, or, with retained results, any terminal
      one. */
  ghost predicate Ends(seen: nat -> Reading, m: nat, allowRetained: bool) {
    if allowRetained then seen(m).status == Terminal
    else m > 0 && Settled(seen(m)) && Settled(seen(m - 1)) && seen(m).revision == seen(m - 1).revision
  }

  // ----- When the deadline moves -----

  /** Without retained results, read `m` shows a new revision, or a run that was not running before; `at` is the
      clock at that check. */
  ghost predicate Progress(seen: nat -> Reading, times: nat -> Times, allowRetained: bool, m: nat, at: int) {
    && !allowRetained
    && (|| (m > 0 && seen(m - 1).revision != None && seen(m).revision != seen(m - 1).revision
            && at == times(m).atRevision)
        || (seen(m).status == Running && (m == 0 || seen(m - 1).status != Running) && at == times(m).atStatus))
  }

  /** A minute from `at`, but no later than five minutes after the first deadline. */
  function Minute(first: int, at: int): int {
    if at + 60 < first + 300 then at + 60 else first + 300
  }

  /** One iteration: progress gives at least another minute, anything else leaves the deadline, and a later deadline is
      exactly such a minute. */
  lemma DeadlineMoves(seen: nat -> Reading, times: nat -> Times, first: int, allowRetained: bool, n: nat)
    ensures var before, after := Deadline(seen, times, first, allowRetained, n),
                Deadline(seen, times, first, allowRetained, n + 1);
            && before <= after
            && (forall at | Progress(seen, times, allowRetained, n, at) :: after >= Minute(first, at))
            && (after == before
                || exists at :: Progress(seen, times, allowRetained, n, at) && after == Minute(first, at))
  {
    DeadlineBound(seen, times, first, allowRetained, n);
    var before := Deadline(seen, times, first, allowRetained, n);
    var after := Deadline(seen, times, first, allowRetained, n + 1);
    assert Deadline(seen, times, first, allowRetained, n + 1 - 1) == before;
    if after != before {
      if after == Minute(first, times(n).atStatus) && StartedRunning(seen, n) {
        assert Progress(seen, times, allowRetained, n, times(n).atStatus);
      } else {
        assert Progress(seen, times, allowRetained, n, times(n).atRevision);
      }
    }
  }

  /** The deadline before read `n` is the first one or the latest minute that any progress gave. */
  lemma {:induction false} DeadlineIs(seen: nat -> Reading, times: nat -> Times, first: int, allowRetained: bool,
          n: nat)
    ensures var d := Deadline(seen, times, first, allowRetained, n);
            && first <= d
            && (forall m: nat, at | m < n && Progress(seen, times, allowRetained, m, at) :: d >= Minute(first, at))
            && (d == first
                || exists m: nat, at :: m < n && Progress(seen, times, allowRetained, m, at) && d == Minute(first, at))
  {
    if n > 0 {
      DeadlineIs(seen, times, first, allowRetained, n - 1);
      DeadlineMoves(seen, times, first, allowRetained, n - 1);
    }
  }

  /** Read `n` is made in time: before the first deadline, or within the minute of some progress before it. */
  ghost predicate InTime(seen: nat -> Reading, times: nat -> Times, first: int, allowRetained: bool, n: nat) {
    || times(n).guard < first
    || exists m: nat, at :: m < n && Progress(seen, times, allowRetained, m, at) && times(n).guard < Minute(first, at)
  }

  lemma InTimeIs(seen: nat -> Reading, times: nat -> Times, first: int, allowRetained: bool, n: nat)
    ensures InTime(seen, times, first, allowRetained, n)
            <==> times(n).guard < Deadline(seen, times, first, allowRetained, n)
  {
    DeadlineIs(seen, times, first, allowRetained, n);
  }

  /** Every read up to the last was made in time and did not end the wait; the last one ended it in time, or came too
      late. */
  ghost predicate EndsRightly(seen: nat -> Reading, times: nat -> Times, first: int, allowRetained: bool,
          outcome: Outcome) {
    var n := if outcome.Accepted? then outcome.read else outcome.polls;
    && (forall m: nat | m < n :: InTime(seen, times, first, allowRetained, m) && !Ends(seen, m, allowRetained))
    && (outcome.Accepted? ==> InTime(seen, times, first, allowRetained, n) && Ends(seen, n, allowRetained))
    && (outcome.TimedOut? ==> !InTime(seen, times, first, allowRetained, n))
  }

  lemma OutcomeMeans(seen: nat -> Reading, times: nat -> Times, first: int, allowRetained: bool, outcome: Outcome)
    ensures IsOutcome(seen, times, first, allowRetained, outcome)
            <==> EndsRightly(seen, times, first, allowRetained, outcome)
  {
    var n := if outcome.Accepted? then outcome.read else outcome.polls;
    forall m: nat
      ensures GoesOn(seen, times, first, allowRetained, m)
              <==> InTime(seen, times, first, allowRetained, m) && !Ends(seen, m, allowRetained)
    {
      InTimeIs(seen, times, first, allowRetained, m);
    }
    InTimeIs(seen, times, first, allowRetained, n);
  }

  // ----- The wait -----

  /** `await_assessment`: `consecutive` counts the exact reads of one revision up to now. */
  method AwaitAssessment(seen: nat -> Reading, times: nat -> Times, started: int, seconds: nat, allowRetained: bool)
    returns (outcome: Outcome)
    requires ClockAdvances(times, started)
    ensures IsOutcome(seen, times, started + seconds, allowRetained, outcome)
    ensures EndsRightly(seen, times, started + seconds, allowRetained, outcome)
  {
    var first := started + seconds;
    var deadline, latest := first, first + REVISION_GRACE;
    var priorRevision: Option<string> := None;
    var priorStatus: Option<Status> := None;
    var consecutive := 0;
    var n := 0;
    while times(n).guard < deadline
      invariant deadline == Deadline(seen, times, first, allowRetained, n) && deadline <= latest
      invariant forall m: nat | m < n :: GoesOn(seen, times, first, allowRetained, m)
      invariant priorRevision == if n > 0 then seen(n - 1).revision else None
      invariant priorStatus == if n > 0 then Some(seen(n - 1).status) else None
      invariant allowRetained ==> consecutive == 0
      invariant !allowRetained ==> 0 <= consecutive < 2
      invariant !allowRetained ==> (consecutive == 1 <==> n > 0 && Exact(seen(n - 1)) && Truthy(seen(n - 1).revision))
      decreases latest - times(n).guard
    {
      var current := seen(n);
      var accepted;
      if allowRetained {
        accepted := current.status.Terminal?;
      } else {
        if Exact(current) && Truthy(current.revision) {
          consecutive := if current.revision == priorRevision then consecutive + 1 else 1;
        } else {
          consecutive := 0;
        }
        accepted := consecutive >= 2;
      }
      if accepted {
        OutcomeMeans(seen, times, first, allowRetained, Accepted(n));
        return Accepted(n);
      }
      if !allowRetained {
        if current.revision != priorRevision && priorRevision.Some? {
          deadline := Extended(deadline, latest, times(n).atRevision);
        }
        if current.status.Running? && priorStatus != Some(Running) {
          deadline := Extended(deadline, latest, times(n).atStatus);
        }
      }
      priorRevision := current.revision;
      priorStatus := Some(current.status);
      assert times(n).guard + PAUSE <= times(n + 1).guard;
      n := n + 1;
      DeadlineBound(seen, times, first, allowRetained, n);
    }
    outcome := TimedOut(n);
    OutcomeMeans(seen, times, first, allowRetained, outcome);
  }

  lemma {:induction false} ReadsTakeTime(times: nat -> Times, started: int, n: nat)
    requires ClockAdvances(times, started)
    ensures started + PAUSE * n <= times(n).guard
  {
    if n > 0 {
      ReadsTakeTime(times, started, n - 1);
      assert times(n - 1).guard <= times(n - 1).atStatus && times(n - 1).atStatus + PAUSE <= times(n - 1 + 1).guard;
    }
  }

  /** What acceptance and refusal guarantee. Without retained results the accepted read and the one before it
      are terminal, contain the target as primary and share one non-empty revision, and no earlier pair did; with
      them the accepted read is the first terminal one. Either way at most one read per five seconds of the bounded
      wait was made. */
  lemma AcceptanceIsStable(seen: nat -> Reading, times: nat -> Times, started: int, seconds: nat, allowRetained: bool,
          outcome: Outcome)
    requires ClockAdvances(times, started) && IsOutcome(seen, times, started + seconds, allowRetained, outcome)
    ensures outcome.Accepted? ==> Ends(seen, outcome.read, allowRetained)
    ensures forall m: nat | m < (if outcome.Accepted? then outcome.read else outcome.polls) ::
            !Ends(seen, m, allowRetained)
    ensures outcome.Accepted? ==> times(outcome.read).guard < started + seconds + 300
    ensures 5 * (if outcome.Accepted? then outcome.read else outcome.polls) < seconds + 305
  {
    var n := if outcome.Accepted? then outcome.read else outcome.polls;
    DeadlineBound(seen, times, started + seconds, allowRetained, n);
    ReadsTakeTime(times, started, n);
    forall m: nat | m < n
      ensures !Ends(seen, m, allowRetained)
    {
      assert GoesOn(seen, times, started + seconds, allowRetained, m);
    }
    if n > 0 {
      var m := n - 1;
      DeadlineBound(seen, times, started + seconds, allowRetained, m);
      ReadsTakeTime(times, started, m);
      assert GoesOn(seen, times, started + seconds, allowRetained, m);
    }
  }
}
