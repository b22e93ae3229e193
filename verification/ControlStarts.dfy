/** What a start comes to: everything its plan wants, or nothing. */
module ControlStarts {
  import opened Json
  import opened VersionedStore
  import opened FieldJournal
  import opened RunClaim
  import opened LabProtocol
  import opened LabInvariant
  import opened LabSteps
  import opened LabTheorems
  import opened LabRecovery
  import opened ControlRuns
  import opened Wrappers

  // ----- A start whose requests all succeed -----

  /** The value of a field after one write of a start. */
  function Updated(op: Op, r: Resource, key: Name, was: Json): Json {
    if op.Fields? && op.r == r && key in op.updates then op.updates[key] else was
  }

  /** The value of a field after the writes of a plan, each over the ones before it. */
  function Wanted(plan: seq<Op>, r: Resource, key: Name, was: Json): Json
    decreases |plan|
  {
    if plan == [] then was else Wanted(plan[1..], r, key, Updated(plan[0], r, key, was))
  }

  /** The job on record after one write. */
  function JobOf(op: Op, was: Option<int>): Option<int> {
    if op.Job? then Some(op.jobId) else was
  }

  /** The job on record after the writes of a plan. */
  function JobAfter(plan: seq<Op>, was: Option<int>): Option<int>
    decreases |plan|
  {
    if plan == [] then was else JobAfter(plan[1..], JobOf(plan[0], was))
  }

  /** The same run is on record, with the job that the write records. */
  ghost predicate Records(docs: Docs, op: Op, docs': Docs) {
    && PersistedRun(docs).Found?
    && PersistedRun(docs') == Found(PersistedRun(docs).run.(jobId := JobOf(op, PersistedRun(docs).run.jobId)))
  }

  lemma JobIsRecorded(docs: Docs, op: Op, docs': Docs)
    requires PersistedRun(docs).Found?
    requires forall name | name in CLAIM && (op.Job? ==> name != RunJobId) ::
               Get(docs'.config.ann, name) == Get(docs.config.ann, name)
    requires op.Job? ==> Get(docs'.config.ann, RunJobId) == Encoded(Number(op.jobId))
    ensures Records(docs, op, docs')
  {
    assert RunOwner in CLAIM && RunTargets in CLAIM && RunBaseline in CLAIM && RunExpiry in CLAIM && RunJobId in CLAIM;
  }

  ghost predicate AllAcknowledged(xs: seq<Exchange>) {
    forall i | 0 <= i < |xs| :: xs[i] == Exchange(true, Acknowledged)
  }

  /** The documents with the writes of a plan in them. */
  ghost predicate Carries(docs: Docs, plan: seq<Op>, docs': Docs) {
    forall r: Resource, key ::
      Get(docs'.At(r).fields, key) == Wanted(plan, r, key, Get(docs.At(r).fields, key))
  }

  /** The documents with one write in them. */
  ghost predicate Takes(docs: Docs, op: Op, docs': Docs) {
    forall r: Resource, key ::
      Get(docs'.At(r).fields, key) == Updated(op, r, key, Get(docs.At(r).fields, key))
  }

  /** A start that stands before the next write of its plan. */
  ghost predicate StartingAt(s: State, run: Run, plan: seq<Op>) {
    Inv(s) && s.ctl == Controller(Some(run), Starting, plan, None, false) && PlanOk(run, plan) && HeldBy(s.claim, run)
  }

  lemma Acknowledges(docs: Docs, op: Op, run: Run)
    requires var verdict := Decide(op, docs.At(Target(op)), run);
             verdict.Write? && verdict.patch.version == docs.At(Target(op)).version
    ensures var r := Target(op);
            Request(docs, op, run, Exchange(true, Acknowledged))
            == (docs.With(r, Apply(docs.At(r), Decide(op, docs.At(r), run).patch)), true)
  {
  }

  lemma TakesFields(docs: Docs, r: Resource, updates: map<Name, Json>, after: Doc)
    requires forall key :: Get(after.fields, key) == if key in updates then updates[key]
               else Get(docs.At(r).fields, key)
    ensures Takes(docs, Fields(r, updates), docs.With(r, after))
  {
  }

  lemma FieldsKeepClaim(docs: Docs, r: Resource, after: Doc)
    requires forall name | !JournalName(name) :: Get(after.ann, name) == Get(docs.At(r).ann, name)
    ensures forall name | name in CLAIM :: Get(docs.With(r, after).config.ann, name) == Get(docs.config.ann, name)
  {
  }

  lemma FieldsAreRecorded(s: State, op: Op, after: Doc)
    requires Inv(s) && s.claim.Some? && op.Fields?
    requires forall name | !JournalName(name) :: Get(after.ann, name) == Get(s.docs.At(op.r).ann, name)
    ensures Records(s.docs, op, s.docs.With(op.r, after))
  {
    PersistedIsClaim(s);
    FieldsKeepClaim(s.docs, op.r, after);
    JobIsRecorded(s.docs, op, s.docs.With(op.r, after));
  }

  lemma FieldsSucceed(s: State, run: Run, plan: seq<Op>)
    requires StartingAt(s, run, plan) && plan != [] && plan[0].Fields?
    ensures var (docs', ok) := Request(s.docs, plan[0], run, Exchange(true, Acknowledged));
            ok && Takes(s.docs, plan[0], docs') && Records(s.docs, plan[0], docs')
  {
    var r, updates := plan[0].r, plan[0].updates;
    var doc := s.docs.At(r);
    ClaimIsOnConfig(s);
    assert DocInv(doc, r, s.claim, s.snap.At(r), r in s.edited);
    FieldsWritten(doc, r, run, updates);
    Acknowledges(s.docs, plan[0], run);
    var after := Apply(doc, ClaimFields(doc, r, run.id, updates).patch);
    TakesFields(s.docs, r, updates, after);
    FieldsAreRecorded(s, plan[0], after);
  }

  lemma TakesNoFields(docs: Docs, jobId: int, after: Doc)
    requires after.fields == docs.config.fields
    ensures Takes(docs, Job(jobId), docs.With(Config, after))
  {
  }

  lemma JobSucceeds(s: State, run: Run, plan: seq<Op>)
    requires StartingAt(s, run, plan) && plan != [] && plan[0].Job?
    ensures var (docs', ok) := Request(s.docs, plan[0], run, Exchange(true, Acknowledged));
            ok && Takes(s.docs, plan[0], docs') && Records(s.docs, plan[0], docs')
  {
    assert Stored(s.docs.At(Config));
    JobWritten(s.docs.config, s.claim.value, run, plan[0].jobId);
    Acknowledges(s.docs, plan[0], run);
    var config := s.docs.config;
    var after := Apply(config, PersistJobId(config, run.id, plan[0].jobId).patch);
    TakesNoFields(s.docs, plan[0].jobId, after);
    PersistedIsClaim(s);
    JobIsRecorded(s.docs, plan[0], s.docs.With(Config, after));
  }

  /** One delivered write of a start succeeds, with exactly its updates. */
  lemma WriteSucceeds(s: State, run: Run, plan: seq<Op>)
    requires StartingAt(s, run, plan) && plan != []
    ensures var (docs', ok) := Request(s.docs, plan[0], run, Exchange(true, Acknowledged));
            ok && Takes(s.docs, plan[0], docs') && Records(s.docs, plan[0], docs')
  {
    match plan[0]
    case Fields(_, _) => FieldsSucceed(s, run, plan);
    case Job(_) => JobSucceeds(s, run, plan);
    case Notify => PersistedIsClaim(s);
  }

  lemma FieldsWritten(doc: Doc, r: Resource, run: Run, updates: map<Name, Json>)
    requires run.id != "" && Stored(doc) && Flat(updates) && (NoJournal(doc) || OwnJournal(doc, run.id))
    requires r == Config ==> Get(doc.ann, RunOwner) == Text(run.id)
    ensures var verdict := ClaimFields(doc, r, run.id, updates);
            && verdict.Write? && verdict.patch.version == doc.version
            && (forall key :: Get(Apply(doc, verdict.patch).fields, key) == if key in updates then updates[key]
                   else Get(doc.fields, key))
            && forall name | !JournalName(name) :: Get(Apply(doc, verdict.patch).ann, name) == Get(doc.ann, name)
  {
    ClaimVerdict(doc, r, run.id, updates);
    ClaimedShape(doc, run.id, updates);
    PatchedReads(doc, ClaimedEntries(doc, run.id, updates), updates);
  }

  lemma JobWritten(config: Doc, claim: Run, run: Run, jobId: int)
    requires Stored(config) && ConfigInv(config, Some(claim)) && claim.id == run.id
    ensures var verdict := PersistJobId(config, run.id, jobId);
            && verdict.Write? && verdict.patch.version == config.version
            && Apply(config, verdict.patch).fields == config.fields
            && Get(Apply(config, verdict.patch).ann, RunJobId) == Encoded(Number(jobId))
            && forall name | name != RunJobId :: Get(Apply(config, verdict.patch).ann, name) == Get(config.ann, name)
  {
    JobLands(config, claim, jobId);
  }

  lemma OkIsDelivered(docs: Docs, op: Op, run: Run, x: Exchange)
    requires Request(docs, op, run, x).1
    ensures Request(docs, op, run, x) == Request(docs, op, run, Exchange(true, Acknowledged))
  {
  }

  /** Where a write that succeeded leaves a start. */
  lemma StartGoesOn(s: State, run: Run, plan: seq<Op>, x: Exchange)
    requires StartingAt(s, run, plan) && plan != [] && Request(s.docs, plan[0], run, x).1
    ensures var s' := Exec(s, RequestSteps(x));
            StartingAt(s', run, plan[1..]) && s'.docs == Request(s.docs, plan[0], run, x).0
    ensures Takes(s.docs, plan[0], Request(s.docs, plan[0], run, x).0)
    ensures Records(s.docs, plan[0], Request(s.docs, plan[0], run, x).0)
  {
    WriteSucceeds(s, run, plan);
    OkIsDelivered(s.docs, plan[0], run, x);
    StartRequestIsSteps(s, x);
    ExecInv(s, RequestSteps(x));
    PlanShrinks(run, plan);
  }

  lemma TakesThenCarries(docs: Docs, plan: seq<Op>, mid: Docs, docs': Docs)
    requires plan != [] && Takes(docs, plan[0], mid) && Carries(mid, plan[1..], docs')
    ensures Carries(docs, plan, docs')
  {
  }

  /** The writes of a start all succeed when they are delivered; if they do, every field is as the plan wants it, and
      the claim still stands. */
  lemma {:induction false} AttemptMeans(s: State, run: Run, plan: seq<Op>, xs: seq<Exchange>)
    requires |plan| == |xs| && StartingAt(s, run, plan)
    ensures AllAcknowledged(xs) ==> Attempt(s.docs, run, plan, xs).1
    ensures var (docs', ok) := Attempt(s.docs, run, plan, xs);
            ok ==> Carries(s.docs, plan, docs') && PersistedRun(s.docs).Found?
                   && PersistedRun(docs') == Found(run.(jobId := JobAfter(plan, PersistedRun(s.docs).run.jobId)))
    decreases |plan|
  {
    if plan == [] {
      PersistedIsClaim(s);
    } else {
      WriteSucceeds(s, run, plan);
      if Request(s.docs, plan[0], run, xs[0]).1 {
        var s' := Exec(s, RequestSteps(xs[0]));
        StartGoesOn(s, run, plan, xs[0]);
        AttemptMeans(s', run, plan[1..], xs[1..]);
        if Attempt(s.docs, run, plan, xs).1 {
          TakesThenCarries(s.docs, plan, s'.docs, Attempt(s.docs, run, plan, xs).0);
        }
      }
    }
  }

  /** The claim of a start succeeds exactly when it is acknowledged and no screenshot runner holds the lock. */
  lemma ClaimMeans(s: State, run: Run, claim: Exchange)
    requires Inv(s) && PersistedRun(s.docs) == NoRun
    ensures var (docs, ok) := Request(s.docs, Claim(run), run, claim);
            && (ok <==> claim == Exchange(true, Acknowledged) && !ProbeOwned(s))
            && (ok ==> Carries(s.docs, [], docs))
            && (ProbeOwned(s) || !claim.readable ==> docs == s.docs)
  {
    PersistedIsClaim(s);
    ClaimIsOnConfig(s);
    if Request(s.docs, Claim(run), run, claim).1 {
      assert Stored(s.docs.At(Config));
      ClaimKeepsFields(s.docs.config, run);
    }
  }

  lemma ClaimedStandsAt(s: State, run: Run, plan: seq<Op>, claim: Exchange)
    requires Inv(s) && Mirrors(s, s.docs, None) && PersistedRun(s.docs) == NoRun
    requires ValidRunId(run.id) && run.jobId.None? && PlanOk(run, plan)
    requires Request(s.docs, Claim(run), run, claim).1
    ensures StartingAt(Exec(s, [Start(run, plan)] + RequestSteps(claim)), run, plan)
    ensures Exec(s, [Start(run, plan)] + RequestSteps(claim)).docs == Request(s.docs, Claim(run), run, claim).0
  {
    ClaimIsARun(s, run, plan, claim);
    ExecInv(s, [Start(run, plan)] + RequestSteps(claim));
  }

  lemma ClaimHasNoJob(config: Doc, run: Run)
    requires Stored(config) && ClaimRun(config, run).Write? && Unclaimed(config)
    ensures Get(Carry(config, ClaimRun(config, run)).ann, RunJobId) == Null
  {
    AnnotationPatchEffect(config, ClaimRun(config, run).patch, ClaimEntries(run));
    assert RunJobId in CLAIM;
  }

  lemma ClaimIsRecorded(s: State, run: Run, plan: seq<Op>, claim: Exchange)
    requires Inv(s) && Mirrors(s, s.docs, None) && PersistedRun(s.docs) == NoRun
    requires ValidRunId(run.id) && run.jobId.None? && PlanOk(run, plan)
    requires Request(s.docs, Claim(run), run, claim).1
    ensures PersistedRun(Request(s.docs, Claim(run), run, claim).0) == Found(run)
  {
    ClaimedStandsAt(s, run, plan, claim);
    PersistedIsClaim(s);
    PersistedIsClaim(Exec(s, [Start(run, plan)] + RequestSteps(claim)));
    assert Stored(s.docs.At(Config));
    ClaimHasNoJob(s.docs.config, run);
  }

  /** A start over an unclaimed Lab, from any reachable state. If all its requests are delivered it succeeds if and
      only if no screenshot runner holds the lock, and otherwise changes nothing; and whenever it succeeds, the run
      is in memory, its claim is on the ConfigMap and every field is as the plan wants it. */
  lemma StartMeans(s: State, run: Run, plan: seq<Op>, claim: Exchange, recheck: bool, xs: seq<Exchange>, net: Net)
    requires |plan| == |xs| && Reachable(s) && Mirrors(s, s.docs, None) && PersistedRun(s.docs) == NoRun
    requires ValidRunId(run.id) && run.jobId.None? && PlanOk(run, plan)
    ensures var (docs, active, ok) := StartOutcome(s.docs, run, plan, claim, recheck, xs, net);
            && (claim == Exchange(true, Acknowledged) && AllAcknowledged(xs) ==> (ok <==> !ProbeOwned(s)))
            && (ProbeOwned(s) ==> !ok && docs == s.docs && active.None?)
            && (ok ==>
                  && active == Some(run) && Carries(s.docs, plan, docs)
                  && PersistedRun(docs) == Found(run.(jobId := JobAfter(plan, None))))
  {
    ReachableInv(s);
    PersistedIsClaim(s);
    ClaimMeans(s, run, claim);
    if Request(s.docs, Claim(run), run, claim).1 {
      ClaimedStandsAt(s, run, plan, claim);
      ClaimIsRecorded(s, run, plan, claim);
      AttemptMeans(Exec(s, [Start(run, plan)] + RequestSteps(claim)), run, plan, xs);
    }
  }

  // ----- A start that fails -----

  /** The claim of this run stands over documents that nobody edited since, and `before` is what they were. */
  ghost predicate ClaimedOver(s: State, run: Run, before: Docs) {
    Inv(s) && HeldBy(s.claim, run) && s.edited == {} && s.snap == before
  }

  lemma RequestKeepsClaim(s: State, x: Exchange)
    requires Working(s.ctl) && s.ctl.read.None? && !s.ctl.todo[0].Claim? && !s.ctl.todo[0].Clear?
    ensures var s' := Exec(s, RequestSteps(x)); s'.claim == s.claim && s'.snap == s.snap && s'.edited == s.edited
  {
    RequestUnfolds(s, x);
  }

  lemma {:induction false} AttemptKeepsClaim(s: State, run: Run, plan: seq<Op>, xs: seq<Exchange>, before: Docs)
    requires |plan| == |xs| && StartingAt(s, run, plan) && ClaimedOver(s, run, before)
    ensures ClaimedOver(Exec(s, AttemptSteps(s.docs, run, plan, xs)), run, before)
    decreases |plan|
  {
    if plan != [] {
      var (docs', ok) := Request(s.docs, plan[0], run, xs[0]);
      var rest := if ok then AttemptSteps(docs', run, plan[1..], xs[1..]) else [];
      RequestKeepsClaim(s, xs[0]);
      ExecInv(s, RequestSteps(xs[0]));
      ExecSplit(s, RequestSteps(xs[0]), rest);
      if ok {
        StartGoesOn(s, run, plan, xs[0]);
        AttemptKeepsClaim(Exec(s, RequestSteps(xs[0])), run, plan[1..], xs[1..], before);
      }
    }
  }

  /** A claim that landed stands over the documents as they were; one that did not changed nothing. */
  lemma ClaimStands(s: State, run: Run, plan: seq<Op>, claim: Exchange)
    requires Inv(s) && s.ctl == RESTARTED && PersistedRun(s.docs) == NoRun && ValidRunId(run.id) && run.jobId.None?
    requires PlanOk(run, plan)
    ensures var s' := Exec(s, [Start(run, plan)] + RequestSteps(claim));
            || ClaimedOver(s', run, s.docs)
            || (s'.docs == s.docs && !Request(s.docs, Claim(run), run, claim).1)
  {
    var s1 := Next(s, Start(run, plan));
    ExecSplit(s, [Start(run, plan)], RequestSteps(claim));
    OneStep(s, Start(run, plan));
    ExecInv(s, [Start(run, plan)] + RequestSteps(claim));
    RequestUnfolds(s1, claim);
    ClaimLandsOrNot(s1, run, claim);
  }

  lemma ClaimLandsOrNot(s: State, run: Run, x: Exchange)
    requires Working(s.ctl) && s.ctl.read.None? && s.ctl.todo[0] == Claim(run) && s.ctl.active == Some(run)
    requires run.jobId.None?
    ensures var s' := if x.readable then Next(Next(s, Read), Finish(x.fate)) else Next(s, Fail);
            || (HeldBy(s'.claim, run) && s'.edited == {} && s'.snap == s.docs)
            || (s'.docs == s.docs && !Request(s.docs, Claim(run), run, x).1)
  {
    assert s.docs.With(Config, s.docs.config) == s.docs;
  }

  /** A recovery of such a claim puts everything back. */
  lemma RecoveredCleanly(s: State, run: Run, net: Net, before: Docs)
    requires ClaimedOver(s, run, before) && AllAnswer(net, run.targets)
    requires s.ctl == Controller(Some(run), Recovering, RecoveryPlan(run), None, false)
    ensures var (docs, active, _) := Recovered(s.docs, run, net);
            active.None? && PutBack(docs, before)
  {
    assert RecoveringCleanly(s);
    PlanIsSweep(s, run, net);
    SweepRestores(s);
    RecoveredIsARun(s, run, net);
    ExecInv(s, Sweep(RecoveryPlan(run)));
    UnclaimedMeans(Exec(s, Sweep(RecoveryPlan(run))));
  }

  /** No claim, no journal, and everything as in `before`. */
  ghost predicate PutBack(docs: Docs, before: Docs) {
    && PersistedRun(docs) == NoRun
    && forall r: Resource :: NoJournal(docs.At(r)) && RestoredTo(docs.At(r), before.At(r))
  }

  lemma UnclaimedMeans(s: State)
    requires Inv(s) && Unclaimed(s.docs.config)
    ensures PersistedRun(s.docs) == NoRun
  {
    PersistedIsClaim(s);
  }

  /** A start that fails leaves nothing behind, provided that it can read its claim back and that its recovery is
      answered: whatever happened to the claim and to the writes, memory is empty and everything is as before. */
  lemma FailedStartIsUndone(s: State, run: Run, plan: seq<Op>, claim: Exchange, xs: seq<Exchange>, net: Net)
    requires |plan| == |xs| && Reachable(s) && Mirrors(s, s.docs, None) && PersistedRun(s.docs) == NoRun
    requires ValidRunId(run.id) && run.jobId.None? && PlanOk(run, plan) && AllAnswer(net, run.targets)
    ensures var (docs, active, ok) := StartOutcome(s.docs, run, plan, claim, true, xs, net);
            !ok ==> active.None? && PutBack(docs, s.docs)
  {
    ReachableInv(s);
    PersistedIsClaim(s);
    ClaimIsARun(s, run, plan, claim);
    ClaimStands(s, run, plan, claim);
    var s1 := Exec(s, [Start(run, plan)] + RequestSteps(claim));
    if Request(s.docs, Claim(run), run, claim).1 {
      ClaimedStandsAt(s, run, plan, claim);
      FailedWritesAreUndone(s1, run, plan, xs, net, s.docs);
    } else if ClaimedOver(s1, run, s.docs) {
      LostClaimIsUndone(s1, run, net, s.docs);
    } else {
      ClearedIsClean(s);
    }
  }

  lemma FailedWritesAreUndone(s: State, run: Run, plan: seq<Op>, xs: seq<Exchange>, net: Net, before: Docs)
    requires |plan| == |xs| && StartingAt(s, run, plan) && ClaimedOver(s, run, before) && AllAnswer(net, run.targets)
    ensures var (docs, active, ok) := ClaimedOutcome(s.docs, run, plan, xs, net);
            !ok ==> active.None? && PutBack(docs, before)
  {
    AttemptKeepsClaim(s, run, plan, xs, before);
    var s' := AfterAttempt(s, run, plan, xs);
    if !Attempt(s.docs, run, plan, xs).1 {
      RecoveredCleanly(s', run, net, before);
    }
  }

  lemma LostClaimIsUndone(s: State, run: Run, net: Net, before: Docs)
    requires ClaimedOver(s, run, before) && s.ctl.active == Some(run) && s.ctl.mode == Verifying
    requires AllAnswer(net, run.targets)
    ensures PersistedRun(s.docs).Found? && PersistedRun(s.docs).run.id == run.id
    ensures var (docs, active, _) := Recovered(s.docs, run, net); active.None? && PutBack(docs, before)
  {
    PersistedIsClaim(s);
    NextInv(s, Verify(true));
    RecoveredCleanly(Next(s, Verify(true)), run, net, before);
  }

  // ----- What the class promises -----

  /** What `start` promises about documents and memory: nothing happens over a run in memory, a failed check or a run
      on the ConfigMap; success means the run in memory, its claim and job on the ConfigMap and every field as the plan
      wants it; a start whose requests are all delivered succeeds if and only if no screenshot runner holds the lock;
      and a failed start that can read its claim back and whose recovery is answered leaves everything as it was. */
  ghost predicate StartPromised(docs: Docs, active: Option<Run>, run: Run, plan: seq<Op>, healthy: bool,
          claim: Exchange, recheck: bool, xs: seq<Exchange>, net: Net, docs': Docs, active': Option<Run>, ok: bool) {
    && (active.Some? || !healthy || PersistedRun(docs) != NoRun ==> !ok && docs' == docs && active' == active)
    && forall s: State | Mirrors(s, docs, active) && Reachable(s) && healthy && active.None?
                         && PersistedRun(docs) == NoRun ::
         && (claim == Exchange(true, Acknowledged) && AllAcknowledged(xs) ==> (ok <==> !ProbeOwned(s)))
         && (ProbeOwned(s) ==> !ok && docs' == docs && active'.None?)
         && (ok ==> active' == Some(run) && Carries(docs, plan, docs')
                    && PersistedRun(docs') == Found(run.(jobId := JobAfter(plan, None))))
         && (!ok && recheck && AllAnswer(net, run.targets) ==> active'.None? && PutBack(docs', docs))
  }

  lemma StartIsPromised(docs: Docs, run: Run, plan: seq<Op>, claim: Exchange, recheck: bool, xs: seq<Exchange>,
          net: Net)
    requires |plan| == |xs| && ValidRunId(run.id) && run.jobId.None? && PlanOk(run, plan) && PersistedRun(docs) == NoRun
    ensures var (docs', active', ok) := StartOutcome(docs, run, plan, claim, recheck, xs, net);
            StartPromised(docs, None, run, plan, true, claim, recheck, xs, net, docs', active', ok)
  {
    var (docs', active', ok) := StartOutcome(docs, run, plan, claim, recheck, xs, net);
    forall s: State | Mirrors(s, docs, None) && Reachable(s)
      ensures claim == Exchange(true, Acknowledged) && AllAcknowledged(xs) ==> (ok <==> !ProbeOwned(s))
      ensures ProbeOwned(s) ==> !ok && docs' == docs && active'.None?
      ensures ok ==> active' == Some(run) && Carries(docs, plan, docs')
                     && PersistedRun(docs') == Found(run.(jobId := JobAfter(plan, None)))
      ensures !ok && recheck && AllAnswer(net, run.targets) ==> active'.None? && PutBack(docs', docs)
    {
      StartMeans(s, run, plan, claim, recheck, xs, net);
      if recheck && AllAnswer(net, run.targets) {
        FailedStartIsUndone(s, run, plan, claim, xs, net);
      }
    }
  }

  lemma StartIsPromisedIf(docs: Docs, active: Option<Run>, run: Run, plan: seq<Op>, healthy: bool, claim: Exchange,
          recheck: bool, xs: seq<Exchange>, net: Net)
    requires |plan| == |xs| && ValidRunId(run.id) && run.jobId.None? && PlanOk(run, plan)
    ensures var (docs', active', ok) := if active.Some? || !healthy || PersistedRun(docs) != NoRun
              then (docs, active, false) else StartOutcome(docs, run, plan, claim, recheck, xs, net);
            StartPromised(docs, active, run, plan, healthy, claim, recheck, xs, net, docs', active', ok)
  {
    if active.None? && healthy && PersistedRun(docs) == NoRun {
      StartIsPromised(docs, run, plan, claim, recheck, xs, net);
    }
  }
}
