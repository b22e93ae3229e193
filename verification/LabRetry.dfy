/** What a retry can and cannot do after a lost reply to the last write of a recovery. */
module LabRetry {
  import opened Json
  import opened VersionedStore
  import opened FieldJournal
  import opened RunClaim
  import opened LabProtocol
  import opened LabInvariant
  import opened LabSteps
  import opened LabTheorems
  import opened LabRecovery
  import opened Wrappers

  // ----- A run in memory whose claim is gone -----

  /** The claim is cleared, but this process still holds the run, and every recovery of it must fail. */
  ghost predicate Stuck(s: State) {
    && s.claim.None? && s.ctl.active.Some?
    && (s.ctl.mode == Resting || (s.ctl.mode == Recovering && (s.ctl.errors || Restore(Config) in s.ctl.todo)))
  }

  /** A finished operation of a recovery leaves the rest of the list, with or without an error. */
  lemma RecoveringFinish(s: State, fate: Fate)
    requires Working(s.ctl) && s.ctl.mode == Recovering && s.ctl.read.Some? && !s.ctl.todo[0].Claim? && s.claim.None?
    ensures var s' := FinishStep(s, fate);
            && (s'.ctl == Advance(s.ctl) || s'.ctl == Raise(s.ctl)) && s'.claim.None?
            && (Decide(s.ctl.todo[0], s.ctl.read.value, s.ctl.active.value).Refuse? ==> s'.ctl == Raise(s.ctl))
  {
  }

  lemma ConfigIsRefused(s: State)
    requires Inv(s) && s.claim.None? && s.ctl.mode == Recovering && Working(s.ctl) && s.ctl.read.Some?
    requires s.ctl.todo[0] == Restore(Config)
    ensures Decide(s.ctl.todo[0], s.ctl.read.value, s.ctl.active.value).Refuse?
  {
    ClaimIsOnConfig(s);
    RetryReadsNoOwner(s);
    NoOwnerNoWrite(s.ctl.todo[0], s.ctl.read.value, s.ctl.active.value);
  }

  lemma StuckFinish(s: State, fate: Fate)
    requires Inv(s) && Stuck(s) && Working(s.ctl) && s.ctl.read.Some?
    ensures var s' := FinishStep(s, fate); Stuck(s') && s'.docs == s.docs
  {
    NoFieldsInRecovery(s.ctl);
    UnclaimedControllerWrites(s, fate);
    RecoveringFinish(s, fate);
    if s.ctl.todo[0] == Restore(Config) {
      ConfigIsRefused(s);
    }
    StuckRest(s.ctl, FinishStep(s, fate).ctl);
  }

  lemma StuckRest(c: Controller, c': Controller)
    requires c.mode == Recovering && c.todo != [] && c.active.Some? && (c.errors || Restore(Config) in c.todo)
    requires c' == Advance(c) || c' == Raise(c)
    requires c.todo[0] == Restore(Config) ==> c' == Raise(c)
    ensures c'.mode == Recovering && c'.active.Some? && (c'.errors || Restore(Config) in c'.todo)
  {
    assert c.todo == [c.todo[0]] + c.todo[1..];
  }

  /** Only a restart of the process ends it; nothing the controller does meanwhile writes anything. */
  lemma StuckStep(s: State, step: Step)
    requires Inv(s) && Stuck(s) && !step.Crash?
    ensures Stuck(Next(s, step)) && ControllerStep(s, step).docs == s.docs
  {
    if !step.Edit? {
      RunnerWrites(s, step);
    }
    match step
    case Finish(fate) => if Working(s.ctl) && s.ctl.read.Some? { StuckFinish(s, fate); }
    case Recover => RecoverIsStuck(s);
    case _ =>
  }

  lemma RecoverIsStuck(s: State)
    requires Stuck(s)
    ensures Stuck(ControllerStep(s, Recover))
  {
    if s.ctl.mode == Resting {
      var plan := RecoveryPlan(s.ctl.active.value);
      assert plan[if MONITOR_TARGET in s.ctl.active.value.targets then 1 else 0] == Restore(Config);
    }
  }

  /** In every run from there without a restart, whatever anybody does: the run stays in memory and no request
      of the controller ever writes again. */
  lemma {:induction false} StuckForever(s: State, steps: seq<Step>)
    requires Inv(s) && Stuck(s) && forall i | 0 <= i < |steps| :: !steps[i].Crash?
    ensures var t := Exec(s, steps);
            Inv(t) && Stuck(t) && forall step :: ControllerStep(t, step).docs == t.docs
    decreases |steps|
  {
    if steps == [] {
      forall step ensures ControllerStep(s, step).docs == s.docs {
        if !step.Crash? {
          StuckStep(s, step);
        }
      }
    } else {
      NextInv(s, steps[0]);
      StuckStep(s, steps[0]);
      StuckForever(Next(s, steps[0]), steps[1..]);
    }
  }

  lemma {:induction false} StuckAlone(s: State, steps: seq<Step>)
    requires Inv(s) && Stuck(s) && forall i | 0 <= i < |steps| :: steps[i].Read? || steps[i].Finish? || steps[i].End?
    ensures Stuck(Exec(s, steps)) && Exec(s, steps).docs == s.docs
    decreases |steps|
  {
    if steps != [] {
      NextInv(s, steps[0]);
      StuckStep(s, steps[0]);
      StuckAlone(Next(s, steps[0]), steps[1..]);
    }
  }

  // ----- How it comes about -----

  /** A recovery whose requests all take effect, but whose last reply, to the clear, is lost. */
  function SweepLost(todo: seq<Op>): seq<Step> {
    if |todo| <= 1 then [Read, Finish(ReplyLost), End] else [Read, Finish(Acknowledged)] + SweepLost(todo[1..])
  }

  lemma LostClear(s: State)
    requires RecoveringCleanly(s) && s.ctl.todo[0].Clear?
    ensures var s' := Next(Next(Next(s, Read), Finish(ReplyLost)), End);
            Inv(s') && Stuck(s') && s'.ctl.active == s.ctl.active && Restored(s', s.snap)
  {
    var s1 := Next(s, Read);
    ReadForSweep(s);
    var s2 := Next(s1, Finish(ReplyLost));
    LostClearLands(s1);
    NextInv(s1, Finish(ReplyLost));
    NextInv(s2, End);
    LostClearRests(s2, s.ctl.active, s.snap);
  }

  lemma LostReply(s: State)
    requires Working(s.ctl) && s.ctl.mode == Recovering && s.ctl.todo == [Clear] && s.ctl.read == Some(s.docs.config)
    requires !Decide(Clear, s.docs.config, s.ctl.active.value).Refuse? && !s.ctl.errors
    ensures var s' := Next(s, Finish(ReplyLost));
            s'.claim.None? && s'.ctl == Controller(s.ctl.active, Recovering, [], None, true)
  {
    DecidedVersion(Clear, s.docs.config, s.ctl.active.value);
    assert [Clear][1..] == [];
  }

  lemma LostClearLands(s: State)
    requires Inv(s) && FreshRead(s) && s.ctl.mode == Recovering && s.claim.Some? && s.edited == {}
    requires Working(s.ctl) && s.ctl.read.Some? && s.ctl.todo == [Clear]
    ensures var s' := Next(s, Finish(ReplyLost));
            && s'.claim.None? && Restored(s', s.snap)
            && s'.ctl == Controller(s.ctl.active, Recovering, [], None, true)
  {
    FreshDecision(s);
    LostReply(s);
    ClearedClean(s);
  }

  lemma ClearedClean(s: State)
    requires Inv(s) && s.claim.Some? && s.edited == {} && Next(s, Finish(ReplyLost)).claim.None?
    ensures Restored(Next(s, Finish(ReplyLost)), s.snap)
  {
    ClaimIsClearedLast(s, Finish(ReplyLost));
  }

  lemma LostClearRests(s: State, active: Option<Run>, snap: Docs)
    requires s.claim.None? && Restored(s, snap) && active.Some?
            && s.ctl == Controller(active, Recovering, [], None, true)
    ensures var s' := Next(s, End); Stuck(s') && s'.ctl.active == active && Restored(s', snap)
  {
    assert Next(s, End).docs == s.docs;
  }

  lemma SweepLostUnfolds(s: State, todo: seq<Op>)
    requires todo != []
    ensures Exec(s, SweepLost(todo))
         == if |todo| == 1 then Next(Next(Next(s, Read), Finish(ReplyLost)), End)
            else Exec(Next(Next(s, Read), Finish(Acknowledged)), SweepLost(todo[1..]))
  {
    var steps := SweepLost(todo);
    assert steps[1..][0] == if |todo| == 1 then Finish(ReplyLost) else Finish(Acknowledged);
    if |todo| == 1 {
      assert steps[1..][1..] == [End];
      var s2 := Next(Next(s, Read), Finish(ReplyLost));
      assert Exec(s2, [End]) == Exec(Next(s2, End), []);
    } else {
      assert steps[1..][1..] == SweepLost(todo[1..]);
    }
  }

  lemma {:induction false} LostSweepSticks(s: State)
    requires RecoveringCleanly(s)
    ensures var after := Exec(s, SweepLost(s.ctl.todo)); Inv(after) && Stuck(after) && Restored(after, s.snap)
    decreases |s.ctl.todo|
  {
    SweepLostUnfolds(s, s.ctl.todo);
    if s.ctl.todo[0].Clear? {
      LastIsAlone(s);
      LostClear(s);
    } else {
      LastIsClear(s.ctl);
      SweepGoesOn(s);
      LostSweepSticks(Next(Next(s, Read), Finish(Acknowledged)));
    }
  }

  lemma LastIsAlone(s: State)
    requires RecoveringCleanly(s) && s.ctl.todo[0].Clear?
    ensures s.ctl.todo == [Clear]
  {
    ReadForSweep(s);
  }

  /** From any reachable state of a claimed Lab that nobody edited there is such a run: the Lab is restored, and
      the process is stuck with a run it can never finish. */
  lemma LostFinalReplySticks(s: State)
    requires Reachable(s) && RunOwned(s) && s.edited == {}
    ensures PersistedRun(s.docs).Found?
    ensures var after := Exec(s, [Crash, Reload] + SweepLost(RecoveryPlan(PersistedRun(s.docs).run)));
            Inv(after) && Stuck(after) && Restored(after, s.snap)
  {
    ReachableInv(s);
    ClaimIsOnConfig(s);
    PersistedIsClaim(s);
    var run := PersistedRun(s.docs).run;
    RestartsCleanly(s, run);
    RestartUnfolds(s, SweepLost(RecoveryPlan(run)));
    LostSweepSticks(Next(Next(s, Crash), Reload));
  }

  // ----- When a retry can succeed -----

  lemma {:induction false} SweepSteps(todo: seq<Op>)
    ensures forall i | 0 <= i < |Sweep(todo)| :: Sweep(todo)[i].Read? || Sweep(todo)[i].Finish? || Sweep(todo)[i].End?
  {
    if todo != [] {
      SweepSteps(todo[1..]);
    }
  }

  lemma RetryBegins(s: State)
    requires Inv(s) && s.ctl.active.Some? && s.ctl.mode == Resting && s.claim.Some? && s.edited == {}
    ensures RecoveringCleanly(Next(s, Recover)) && Next(s, Recover).ctl.todo == RecoveryPlan(s.ctl.active.value)
    ensures Next(s, Recover).snap == s.snap
  {
    NextInv(s, Recover);
  }

  /** A retry in the same process, of an unedited Lab and with requests that all succeed, ends the run exactly
      when the claim is still on the ConfigMap; otherwise it writes nothing and leaves the process stuck. */
  lemma RetrySucceedsIffClaimed(s: State)
    requires Reachable(s) && s.ctl.active.Some? && s.ctl.mode == Resting && s.edited == {}
    ensures var t := Exec(Next(s, Recover), Sweep(RecoveryPlan(s.ctl.active.value)));
            && (t.ctl.active.None? <==> RunOwned(s))
            && (RunOwned(s) ==> Restored(t, s.snap))
            && (!RunOwned(s) ==> t.docs == s.docs && Stuck(t))
  {
    ReachableInv(s);
    ClaimIsOnConfig(s);
    var plan := RecoveryPlan(s.ctl.active.value);
    if RunOwned(s) {
      RetryBegins(s);
      SweepRestores(Next(s, Recover));
    } else {
      NextInv(s, Recover);
      StuckStep(s, Recover);
      SweepSteps(plan);
      StuckAlone(Next(s, Recover), Sweep(plan));
    }
  }
}
