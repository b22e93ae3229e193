/** Crash-safe recovery: from a restart at any point of any run, one recovery puts everything back. */
module LabRecovery {
  import opened Json
  import opened VersionedStore
  import opened FieldJournal
  import opened RunClaim
  import opened LabProtocol
  import opened LabInvariant
  import opened LabSteps
  import opened LabTheorems
  import opened Wrappers

  // ----- Reads stay current while a run claims the Lab -----

  ghost predicate FreshRead(s: State) {
    s.claim.Some? && s.edited == {} && s.ctl.read.Some? && Working(s.ctl) && !s.ctl.todo[0].Claim?
    ==> s.ctl.read.value == s.docs.At(Target(s.ctl.todo[0]))
  }

  lemma FreshNext(s: State, step: Step)
    requires Inv(s) && FreshRead(s)
    ensures FreshRead(Next(s, step))
  {
    if !step.Edit? {
      RunnerWrites(s, step);
      FreshController(s, step);
    }
  }

  /** The controller uses up a read when it writes. */
  lemma FreshController(s: State, step: Step)
    requires FreshRead(s)
    ensures FreshRead(ControllerStep(s, step))
  {
    if ControllerStep(s, step) != s {
      assert ControllerStep(s, step).ctl.read.None? || step.Read?;
    }
  }

  lemma {:induction false} FreshExec(s: State, steps: seq<Step>)
    requires Inv(s) && FreshRead(s)
    ensures Inv(Exec(s, steps)) && FreshRead(Exec(s, steps))
    decreases |steps|
  {
    if steps != [] {
      NextInv(s, steps[0]);
      FreshNext(s, steps[0]);
      FreshExec(Next(s, steps[0]), steps[1..]);
    }
  }

  /** A decision on a document the run itself left is never refused. */
  lemma DecisionIsAccepted(op: Op, doc: Doc, claim: Run, run: Run, before: Doc)
    requires op.Restore? || op.Notify? || op.Clear?
    requires DocInv(doc, Target(op), Some(claim), before, false) && run.id == claim.id && ValidRunId(run.id)
    requires Target(op) == Config ==> Get(doc.ann, RunOwner) == Text(run.id)
    ensures !Decide(op, doc, run).Refuse?
  {
    if op.Restore? {
      RestoreTakesWayBack(doc, op.r, run.id, before.fields);
    }
  }

  /** In any interleaving, a recovery of an unedited Lab is never refused and never meets a conflict: a request
      the network delivers succeeds. */
  lemma RecoveryIsNeverRefused(s: State)
    requires Reachable(s) && s.ctl.mode == Recovering && s.claim.Some? && s.edited == {} && Working(s.ctl)
            && s.ctl.read.Some?
    ensures ControllerStep(s, Finish(Acknowledged)).ctl == Advance(s.ctl)
  {
    var init: State, steps: seq<Step> :| Init(init) && s == Exec(init, steps);
    InitInv(init);
    FreshExec(init, steps);
    FreshFinish(s);
  }

  lemma FreshFinish(s: State)
    requires Inv(s) && FreshRead(s) && s.ctl.mode == Recovering && s.claim.Some? && s.edited == {}
    requires Working(s.ctl) && s.ctl.read.Some?
    ensures ControllerStep(s, Finish(Acknowledged)).ctl == Advance(s.ctl)
    ensures Decide(s.ctl.todo[0], s.ctl.read.value, s.ctl.active.value).Write? ==> Lands(s, Acknowledged)
  {
    FreshDecision(s);
    AcceptedFinish(s);
  }

  lemma FreshDecision(s: State)
    requires Inv(s) && FreshRead(s) && s.ctl.mode == Recovering && s.claim.Some? && s.edited == {}
    requires Working(s.ctl) && s.ctl.read.Some?
    ensures s.ctl.read.value == s.docs.At(Target(s.ctl.todo[0]))
    ensures !Decide(s.ctl.todo[0], s.ctl.read.value, s.ctl.active.value).Refuse?
  {
    NoFieldsInRecovery(s.ctl);
    ClaimIsOnConfig(s);
    var op := s.ctl.todo[0];
    var r := Target(op);
    assert DocInv(s.docs.At(r), r, s.claim, s.snap.At(r), r in s.edited);
    DecisionIsAccepted(op, s.docs.At(r), s.claim.value, s.ctl.active.value, s.snap.At(r));
  }

  lemma AcceptedFinish(s: State)
    requires Working(s.ctl) && s.ctl.read.Some? && s.ctl.read.value == s.docs.At(Target(s.ctl.todo[0]))
    requires !Decide(s.ctl.todo[0], s.ctl.read.value, s.ctl.active.value).Refuse?
    ensures ControllerStep(s, Finish(Acknowledged)).ctl == Advance(s.ctl)
    ensures Decide(s.ctl.todo[0], s.ctl.read.value, s.ctl.active.value).Write? ==> Lands(s, Acknowledged)
  {
    var op, read, run := s.ctl.todo[0], s.ctl.read.value, s.ctl.active.value;
    if Decide(op, read, run).Write? {
      DecidedVersion(op, read, run);
    }
  }

  // ----- One recovery whose requests all succeed -----

  function Sweep(todo: seq<Op>): seq<Step> {
    if todo == [] then [End] else [Read, Finish(Acknowledged)] + Sweep(todo[1..])
  }

  ghost predicate RecoveringCleanly(s: State) {
    && Inv(s) && s.ctl.active.Some? && s.ctl.mode == Recovering && !s.ctl.errors && s.ctl.read.None?
    && s.claim.Some? && s.edited == {} && s.ctl.todo != []
  }

  /** One GET and PATCH of the sweep. */
  lemma SweepStep(s: State)
    requires RecoveringCleanly(s)
    ensures var s' := Next(Next(s, Read), Finish(Acknowledged));
            && Inv(s') && s'.ctl == Advance(s.ctl) && s'.snap == s.snap && s'.edited == {}
            && (!s.ctl.todo[0].Clear? ==> s'.claim == s.claim)
            && (s.ctl.todo[0].Clear? ==> s.ctl.todo == [Clear] && s'.claim.None? && Restored(s', s.snap))
  {
    var s1 := Next(s, Read);
    ReadForSweep(s);
    FreshFinish(s1);
    FinishHistory(s1);
    NextInv(s1, Finish(Acknowledged));
    if s.ctl.todo[0].Clear? {
      assert Lands(s1, Acknowledged);
      SweptClean(s1);
    }
  }

  lemma FinishHistory(s: State)
    requires Working(s.ctl) && s.ctl.read.Some? && !s.ctl.todo[0].Claim?
    ensures var s' := ControllerStep(s, Finish(Acknowledged));
            && s'.snap == s.snap && s'.edited == s.edited && (!s.ctl.todo[0].Clear? ==> s'.claim == s.claim)
            && (s.ctl.todo[0].Clear? && Lands(s, Acknowledged) ==> s'.claim.None?)
  {
    if Decide(s.ctl.todo[0], s.ctl.read.value, s.ctl.active.value).Write? {
      DecidedVersion(s.ctl.todo[0], s.ctl.read.value, s.ctl.active.value);
    }
  }

  lemma ReadForSweep(s: State)
    requires RecoveringCleanly(s)
    ensures Next(s, Read) == s.(ctl := s.ctl.(read := Some(s.docs.At(Target(s.ctl.todo[0])))))
    ensures Inv(Next(s, Read)) && FreshRead(Next(s, Read)) && Working(s.ctl)
    ensures !s.ctl.todo[0].Claim? && !s.ctl.todo[0].Fields? && !s.ctl.todo[0].Job?
    ensures s.ctl.todo[0].Clear? ==> s.ctl.todo == [Clear]
  {
    NoFieldsInRecovery(s.ctl);
    NextInv(s, Read);
  }

  lemma SweptClean(s: State)
    requires Inv(s) && s.claim.Some? && s.edited == {} && Next(s, Finish(Acknowledged)).claim.None?
    ensures Restored(Next(s, Finish(Acknowledged)), s.snap)
  {
    ClaimIsClearedLast(s, Finish(Acknowledged));
  }

  ghost predicate Restored(s: State, snap: Docs) {
    && Unclaimed(s.docs.config)
    && (forall r: Resource :: NoJournal(s.docs.At(r)) && RestoredTo(s.docs.At(r), snap.At(r)))
  }

  /** The sweep goes on until its last operation, the clear. */
  lemma SweepGoesOn(s: State)
    requires RecoveringCleanly(s) && !s.ctl.todo[0].Clear?
    ensures var s' := Next(Next(s, Read), Finish(Acknowledged));
            RecoveringCleanly(s') && s'.ctl.todo == s.ctl.todo[1..] && s'.snap == s.snap
  {
    SweepStep(s);
    LastIsClear(s.ctl);
  }

  lemma SweepEnds(s: State)
    requires RecoveringCleanly(s) && s.ctl.todo[0].Clear?
    ensures s.ctl.todo == [Clear]
    ensures var after := Next(Next(Next(s, Read), Finish(Acknowledged)), End);
            after.ctl == RESTARTED && Restored(after, s.snap)
  {
    SweepStep(s);
    EndsClean(Next(Next(s, Read), Finish(Acknowledged)), s.snap);
  }

  lemma EndsClean(s: State, snap: Docs)
    requires s.ctl.active.Some? && s.ctl.mode == Recovering && s.ctl.todo == [] && !s.ctl.errors && Restored(s, snap)
    ensures Next(s, End).ctl == RESTARTED && Restored(Next(s, End), snap)
  {
    assert Next(s, End).docs == s.docs;
  }

  lemma SweepUnfolds(s: State, todo: seq<Op>)
    requires todo != []
    ensures Exec(s, Sweep(todo)) == Exec(Next(Next(s, Read), Finish(Acknowledged)), Sweep(todo[1..]))
  {
    var steps := Sweep(todo);
    assert steps[1..][0] == Finish(Acknowledged) && steps[1..][1..] == Sweep(todo[1..]);
  }

  lemma {:induction false} SweepRestores(s: State)
    requires RecoveringCleanly(s)
    ensures var after := Exec(s, Sweep(s.ctl.todo)); after.ctl == RESTARTED && Restored(after, s.snap)
    decreases |s.ctl.todo|
  {
    var todo := s.ctl.todo;
    SweepUnfolds(s, todo);
    if todo[0].Clear? {
      SweepEnds(s);
      var s' := Next(Next(s, Read), Finish(Acknowledged));
      assert Exec(s', [End]) == Exec(Next(s', End), []);
    } else {
      SweepGoesOn(s);
      SweepRestores(Next(Next(s, Read), Finish(Acknowledged)));
    }
  }

  lemma LastIsClear(c: Controller)
    requires c.active.Some? && c.todo != [] && Suffix(c.todo, RecoveryPlan(c.active.value)) && !c.todo[0].Clear?
    ensures c.todo[1..] != []
  {
    var plan := RecoveryPlan(c.active.value);
    assert plan[|plan| - 1] == Clear;
    assert c.todo[|c.todo| - 1] == plan[|plan| - 1];
  }

  lemma RestartUnfolds(s: State, rest: seq<Step>)
    ensures Exec(s, [Crash, Reload] + rest) == Exec(Next(Next(s, Crash), Reload), rest)
  {
    var steps := [Crash, Reload] + rest;
    assert steps[1..][0] == Reload && steps[1..][1..] == rest;
  }

  /** From a restart at any point of a run (between any two requests of start or recover, replies lost or
      not) of a Lab nobody edited since the claim, one recovery whose requests all succeed reports success,
      gives every field of the three objects its value from claim time, and leaves no claim and no journal. */
  lemma CrashSafeRecovery(s: State)
    requires Reachable(s) && RunOwned(s) && s.edited == {}
    ensures PersistedRun(s.docs).Found?
    ensures var run := PersistedRun(s.docs).run;
            var after := Exec(s, [Crash, Reload] + Sweep(RecoveryPlan(run)));
            after.ctl == RESTARTED && Restored(after, s.snap)
  {
    ReachableInv(s);
    ClaimIsOnConfig(s);
    PersistedIsClaim(s);
    var run := PersistedRun(s.docs).run;
    RestartsCleanly(s, run);
    RestartUnfolds(s, Sweep(RecoveryPlan(run)));
    SweepRestores(Next(Next(s, Crash), Reload));
  }

  /** A restarted controller reads its run back and begins the recovery. */
  lemma RestartsCleanly(s: State, run: Run)
    requires Inv(s) && s.claim.Some? && s.edited == {} && PersistedRun(s.docs) == Found(run)
    ensures var s' := Next(Next(s, Crash), Reload);
            RecoveringCleanly(s') && s'.snap == s.snap && s'.ctl.todo == RecoveryPlan(run)
  {
    RestartShape(s, run);
    RestartKeeps(s);
  }

  lemma RestartShape(s: State, run: Run)
    requires PersistedRun(s.docs) == Found(run)
    ensures Next(Next(s, Crash), Reload) == s.(ctl := Controller(Some(run), Recovering, RecoveryPlan(run), None, false))
    ensures RecoveryPlan(run) != []
  {
  }

  lemma RestartKeeps(s: State)
    requires Inv(s)
    ensures Inv(Next(Next(s, Crash), Reload))
  {
    NextInv(s, Crash);
    NextInv(Next(s, Crash), Reload);
  }

  /** With no claim on the ConfigMap a recovery after a restart finds nothing to do and writes nothing. */
  lemma RecoveryWithoutClaim(s: State)
    requires Reachable(s) && !RunOwned(s)
    ensures var after := Exec(s, [Crash, Reload]); after.ctl == RESTARTED && after.docs == s.docs
    ensures Unclaimed(s.docs.config) && forall r: Resource :: NoJournal(s.docs.At(r))
  {
    ReachableInv(s);
    ClaimIsOnConfig(s);
    PersistedIsClaim(s);
    JournalsReady(s);
    ReloadsNothing(s);
  }

  lemma ReloadsNothing(s: State)
    requires PersistedRun(s.docs) == NoRun
    ensures Exec(s, [Crash, Reload]) == s.(ctl := RESTARTED)
  {
    assert [Crash, Reload][1..] == [Reload];
    assert Exec(Next(s, Crash), [Reload]) == Exec(Next(Next(s, Crash), Reload), []);
  }

  lemma NoOwnerNoWrite(op: Op, doc: Doc, run: Run)
    requires (op == Restore(Config) || op.Clear?) && Get(doc.ann, RunOwner) == Null
    ensures Decide(op, doc, run).Refuse?
  {
  }

  lemma RetryReadsNoOwner(s: State)
    requires Inv(s) && !RunOwned(s) && s.ctl.mode == Recovering && Working(s.ctl) && s.ctl.read.Some?
    requires Target(s.ctl.todo[0]) == Config && !s.ctl.todo[0].Notify?
    ensures (s.ctl.todo[0] == Restore(Config) || s.ctl.todo[0].Clear?) && Get(s.ctl.read.value.ann, RunOwner) == Null
  {
    ClaimIsOnConfig(s);
    NoFieldsInRecovery(s.ctl);
    assert Get(s.ctl.read.value.ann, RunOwner) == Get(s.docs.config.ann, RunOwner);
  }
}
