/** What the controller's operations come to, request by request, and why each is a run of the protocol. */
module ControlRuns {
  import opened Json
  import opened VersionedStore
  import opened FieldJournal
  import opened RunClaim
  import opened LabProtocol
  import opened LabInvariant
  import opened LabSteps
  import opened LabTheorems
  import opened LabRecovery
  import opened LabRetry
  import opened Wrappers

  /** How the network treats one GET and the PATCH after it. */
  datatype Exchange = Exchange(readable: bool, fate: Fate)

  // ----- The application services -----

  /** The services in the order in which a recovery contacts them; `database` is the queue. */
  const SERVICES := ["inventory", "database", "worker", "orders", "cnfc-edge", "library"]

  /** A target is contacted; Inventory and Orders get the baseline, so only once the ConfigMap is restored. */
  predicate IsContacted(service: string, targets: seq<string>, configRestored: bool) {
    service in targets && ((service == "inventory" || service == "orders") ==> configRestored)
  }

  function Contacts(services: seq<string>, targets: seq<string>, configRestored: bool): seq<string> {
    if services == [] then []
    else
      var last := |services| - 1;
      Contacts(services[..last], targets, configRestored)
      + if IsContacted(services[last], targets, configRestored) then [services[last]] else []
  }

  predicate AllAcknowledge(contacted: seq<string>, acks: set<string>) {
    forall service | service in contacted :: service in acks
  }

  lemma {:induction false} ContactsMean(services: seq<string>, targets: seq<string>, configRestored: bool,
          service: string)
    ensures service in Contacts(services, targets, configRestored)
            <==> service in services && IsContacted(service, targets, configRestored)
  {
    if services != [] {
      ContactsMean(services[..|services| - 1], targets, configRestored, service);
      assert services == services[..|services| - 1] + [services[|services| - 1]];
    }
  }

  function If(condition: bool, service: string): seq<string> {
    if condition then [service] else []
  }

  /** The services a recovery contacts, in order. */
  function Called(targets: seq<string>, configRestored: bool): seq<string> {
    If("inventory" in targets && configRestored, "inventory") + If("database" in targets, "database")
    + If("worker" in targets, "worker") + If("orders" in targets && configRestored, "orders")
    + If("cnfc-edge" in targets, "cnfc-edge") + If("library" in targets, "library")
  }

  lemma ContactsGrow(services: seq<string>, targets: seq<string>, configRestored: bool, service: string)
    ensures Contacts(services + [service], targets, configRestored)
         == Contacts(services, targets, configRestored) + If(IsContacted(service, targets, configRestored), service)
  {
    assert (services + [service])[..|services|] == services;
  }

  lemma ContactsAreCalled(targets: seq<string>, configRestored: bool)
    ensures Contacts(SERVICES, targets, configRestored) == Called(targets, configRestored)
  {
    var two, four := ["inventory", "database"], ["inventory", "database", "worker", "orders"];
    var five := four + ["cnfc-edge"];
    ContactsGrow([], targets, configRestored, "inventory");
    ContactsGrow(["inventory"], targets, configRestored, "database");
    assert [] + ["inventory"] == ["inventory"] && ["inventory"] + ["database"] == two;
    ContactsGrow(two, targets, configRestored, "worker");
    ContactsGrow(two + ["worker"], targets, configRestored, "orders");
    assert two + ["worker"] + ["orders"] == four;
    ContactsGrow(four, targets, configRestored, "cnfc-edge");
    ContactsGrow(five, targets, configRestored, "library");
    assert five + ["library"] == SERVICES;
  }

  /** One recovery's worth of answers; `acks` are the services that would acknowledge the run. */
  datatype Net = Net(reload: bool, monitor: Exchange, config: Exchange, service: Exchange, acks: set<string>,
      clear: Exchange) {
    function For(op: Op, run: Run): Exchange {
      match op
      case Restore(Monitor) => monitor
      case Restore(Config) => config
      case Restore(Service) => service
      case Notify => Exchange(AllAcknowledge(Contacts(SERVICES, run.targets, true), acks), Acknowledged)
      case _ => clear
    }
  }

  /** A GET, a decision and a PATCH with nobody in between. */
  function Request(docs: Docs, op: Op, run: Run, x: Exchange): (Docs, bool) {
    if !x.readable then (docs, false)
    else
      var doc := docs.At(Target(op));
      var verdict := Decide(op, doc, run);
      if verdict.Refuse? then (docs, false)
      else if verdict.Leave? then (docs, true)
      else
        var (after, ok) := Send(doc, verdict.patch, x.fate);
        (docs.With(Target(op), after), ok)
  }

  /** `_recover` over its list of operations: failures are collected, and the claim is cleared only without any. */
  function RunPlan(docs: Docs, run: Run, todo: seq<Op>, errors: bool, net: Net): (Docs, bool)
    decreases |todo|
  {
    if todo == [] || (todo[0].Clear? && errors) then (docs, errors)
    else
      var (docs', ok) := Request(docs, todo[0], run, net.For(todo[0], run));
      RunPlan(docs', run, todo[1..], errors || !ok, net)
  }

  /** `_start`'s writes in order, up to the first that fails. */
  function Attempt(docs: Docs, run: Run, plan: seq<Op>, xs: seq<Exchange>): (Docs, bool)
    requires |plan| == |xs|
    decreases |plan|
  {
    if plan == [] then (docs, true)
    else
      var (docs', ok) := Request(docs, plan[0], run, xs[0]);
      if ok then Attempt(docs', run, plan[1..], xs[1..]) else (docs', false)
  }

  /** `start` once its checks have passed: documents, run in memory, success. A claim whose reply was lost is
      found again by reading it back; a claimed run that fails is recovered on the spot. */
  function StartOutcome(docs: Docs, run: Run, plan: seq<Op>, claim: Exchange, recheck: bool, xs: seq<Exchange>,
          net: Net)
    : (Docs, Option<Run>, bool)
    requires |plan| == |xs|
  {
    var (claimedDocs, claimed) := Request(docs, Claim(run), run, claim);
    if claimed then ClaimedOutcome(claimedDocs, run, plan, xs, net)
    else
      var persisted := PersistedRun(claimedDocs);
      if recheck && persisted.Found? && persisted.run.id == run.id then Recovered(claimedDocs, run, net)
      else (claimedDocs, None, false)
  }

  function ClaimedOutcome(docs: Docs, run: Run, plan: seq<Op>, xs: seq<Exchange>, net: Net): (Docs, Option<Run>, bool)
    requires |plan| == |xs|
  {
    var (started, ok) := Attempt(docs, run, plan, xs);
    if ok then (started, Some(run), true) else Recovered(started, run, net)
  }

  function Recovered(docs: Docs, run: Run, net: Net): (Docs, Option<Run>, bool) {
    var (docs', failed) := RunPlan(docs, run, RecoveryPlan(run), false, net);
    (docs', if failed then Some(run) else None, false)
  }

  /** `_recover` as a whole: documents, run in memory, history, success. */
  function RecoverOutcome(docs: Docs, active: Option<Run>, history: seq<Run>, net: Net)
    : (Docs, Option<Run>, seq<Run>, bool)
  {
    var persisted := PersistedRun(docs);
    if active.None? && !(net.reload && persisted.Found?) then (docs, None, history, net.reload && persisted == NoRun)
    else
      var run := if active.Some? then active.value else persisted.run;
      var (docs', failed) := RunPlan(docs, run, RecoveryPlan(run), false, net);
      (docs', if failed then Some(run) else None, if failed then history else LastTwenty(history + [run]), !failed)
  }

  /** Whose run a recovery would be about, as `recover` finds it out. */
  function OwnerOf(docs: Docs, active: Option<Run>): Option<string> {
    if active.Some? then Some(active.value.id)
    else if PersistedRun(docs).Found? then Some(PersistedRun(docs).run.id)
    else None
  }

  datatype Answer = Raised | Answered(ok: bool)

  /** Whether the ConfigMap restore of a recovery succeeds. */
  function ConfigRestored(docs: Docs, run: Run, net: Net): bool {
    var docs' := if MONITOR_TARGET in run.targets then Request(docs, Restore(Monitor), run, net.monitor).0 else docs;
    Request(docs', Restore(Config), run, net.config).1
  }

  const AFTER_SERVICE := [Notify, Clear]
  const AFTER_CONFIG := [Restore(Service)] + AFTER_SERVICE
  const AFTER_MONITOR := [Restore(Config)] + AFTER_CONFIG

  lemma NextOp(docs: Docs, run: Run, op: Op, rest: seq<Op>, errors: bool, net: Net)
    requires !(op.Clear? && errors)
    ensures RunPlan(docs, run, [op] + rest, errors, net)
         == var (docs', ok) := Request(docs, op, run, net.For(op, run)); RunPlan(docs', run, rest, errors || !ok, net)
  {
    assert ([op] + rest)[1..] == rest;
  }

  lemma PlanIsChain(run: Run)
    ensures RecoveryPlan(run) == if "exporter-monitor" in run.targets then [Restore(Monitor)] + AFTER_MONITOR
            else AFTER_MONITOR
  {
    assert AFTER_MONITOR == [Restore(Config), Restore(Service), Notify, Clear];
  }

  /** The end of the plan: an unacknowledged service keeps the claim. */
  lemma ServicesThenClear(docs: Docs, run: Run, errors: bool, net: Net)
    ensures RunPlan(docs, run, AFTER_SERVICE, errors, net)
         == if errors || !net.For(Notify, run).readable then (docs, true)
            else var (docs', ok) := Request(docs, Clear, run, net.clear); (docs', !ok)
  {
    var failed := errors || !net.For(Notify, run).readable;
    assert AFTER_SERVICE == [Notify] + [Clear] && [Clear] == [Clear] + [];
    NextOp(docs, run, Notify, [Clear], errors, net);
    if !failed {
      NextOp(docs, run, Clear, [], failed, net);
    }
  }

  function LastTwenty(runs: seq<Run>): seq<Run> {
    if |runs| <= 20 then runs else runs[|runs| - 20..]
  }

  // ----- The sequential recovery is a run of the protocol -----

  function PlanSteps(docs: Docs, run: Run, todo: seq<Op>, errors: bool, net: Net): seq<Step>
    decreases |todo|
  {
    if todo == [] || (todo[0].Clear? && errors) then [End]
    else
      var x := net.For(todo[0], run);
      var (docs', ok) := Request(docs, todo[0], run, x);
      (if x.readable then [Read, Finish(x.fate)] else [Fail]) + PlanSteps(docs', run, todo[1..], errors || !ok, net)
  }

  lemma RequestIsSteps(s: State, x: Exchange)
    requires Working(s.ctl) && s.ctl.mode == Recovering && s.ctl.read.None?
    ensures var (docs', ok) := Request(s.docs, s.ctl.todo[0], s.ctl.active.value, x);
            var s' := if x.readable then Next(Next(s, Read), Finish(x.fate)) else Next(s, Fail);
            s'.docs == docs' && s'.ctl == Controller(s.ctl.active, Recovering, s.ctl.todo[1..], None, s.ctl.errors
                || !ok)
  {
    var r := Target(s.ctl.todo[0]);
    assert s.docs.With(r, s.docs.At(r)) == s.docs;
  }

  /** Nothing the class does sequentially escapes the theorems about interleavings. */
  lemma {:induction false} RecoveryIsARun(s: State, run: Run, net: Net)
    requires s.ctl == Controller(Some(run), Recovering, s.ctl.todo, None, s.ctl.errors)
    ensures var after := Exec(s, PlanSteps(s.docs, run, s.ctl.todo, s.ctl.errors, net));
            var (docs, failed) := RunPlan(s.docs, run, s.ctl.todo, s.ctl.errors, net);
            && after.docs == docs
            && after.ctl == Controller(if failed then Some(run) else None, Resting, [], None, false)
    decreases |s.ctl.todo|
  {
    var todo, errors := s.ctl.todo, s.ctl.errors;
    var steps := PlanSteps(s.docs, run, todo, errors, net);
    if todo == [] || (todo[0].Clear? && errors) {
      assert Exec(s, [End]) == Next(s, End);
    } else {
      var x := net.For(todo[0], run);
      RequestIsSteps(s, x);
      var (docs', ok) := Request(s.docs, todo[0], run, x);
      var rest := PlanSteps(docs', run, todo[1..], errors || !ok, net);
      var s' := if x.readable then Next(Next(s, Read), Finish(x.fate)) else Next(s, Fail);
      if x.readable {
        assert steps[1..][1..] == rest;
      } else {
        assert steps[1..] == rest;
      }
      assert Exec(s, steps) == Exec(s', rest);
      RecoveryIsARun(s', run, net);
    }
  }

  function RequestSteps(x: Exchange): seq<Step> {
    if x.readable then [Read, Finish(x.fate)] else [Fail]
  }

  function AttemptSteps(docs: Docs, run: Run, plan: seq<Op>, xs: seq<Exchange>): seq<Step>
    requires |plan| == |xs|
    decreases |plan|
  {
    if plan == [] then []
    else
      var (docs', ok) := Request(docs, plan[0], run, xs[0]);
      RequestSteps(xs[0]) + if ok then AttemptSteps(docs', run, plan[1..], xs[1..]) else []
  }

  lemma StartRequestMeans(s: State, x: Exchange)
    requires Working(s.ctl) && s.ctl.mode == Starting && s.ctl.read.None?
    ensures var (docs', ok) := Request(s.docs, s.ctl.todo[0], s.ctl.active.value, x);
            var s' := if x.readable then Next(Next(s, Read), Finish(x.fate)) else Next(s, Fail);
            s'.docs == docs' && s'.ctl == (if ok then Advance(s.ctl) else Raise(s.ctl))
  {
    var r := Target(s.ctl.todo[0]);
    assert s.docs.With(r, s.docs.At(r)) == s.docs;
  }

  lemma RequestUnfolds(s: State, x: Exchange)
    ensures Exec(s, RequestSteps(x)) == if x.readable then Next(Next(s, Read), Finish(x.fate)) else Next(s, Fail)
  {
    if x.readable {
      assert [Read, Finish(x.fate)][1..] == [Finish(x.fate)];
      OneStep(Next(s, Read), Finish(x.fate));
    } else {
      OneStep(s, Fail);
    }
  }

  lemma StartRequestIsSteps(s: State, x: Exchange)
    requires Working(s.ctl) && s.ctl.mode == Starting && s.ctl.read.None?
    ensures var (docs', ok) := Request(s.docs, s.ctl.todo[0], s.ctl.active.value, x);
            var s' := Exec(s, RequestSteps(x));
            s'.docs == docs' && s'.ctl == (if ok then Advance(s.ctl) else Raise(s.ctl))
  {
    StartRequestMeans(s, x);
    RequestUnfolds(s, x);
  }

  lemma {:induction false} ExecSplit(s: State, before: seq<Step>, after: seq<Step>)
    ensures Exec(s, before + after) == Exec(Exec(s, before), after)
    decreases |before|
  {
    if before == [] {
      assert before + after == after;
    } else {
      assert (before + after)[1..] == before[1..] + after;
      ExecSplit(Next(s, before[0]), before[1..], after);
    }
  }

  /** `_start`'s sequence of writes is a run of the protocol, ending at rest or in recovery. */
  lemma {:induction false} AttemptIsARun(s: State, run: Run, plan: seq<Op>, xs: seq<Exchange>)
    requires |plan| == |xs| && PlanOk(run, plan) && s.ctl == Controller(Some(run), Starting, plan, None, false)
    ensures var after := Exec(s, AttemptSteps(s.docs, run, plan, xs));
            var (docs, ok) := Attempt(s.docs, run, plan, xs);
            && after.docs == docs
            && after.ctl == if ok then Controller(Some(run), Starting, [], None, false) else BeginRecovery(s.ctl)
    decreases |plan|
  {
    if plan != [] {
      var (docs', ok) := Request(s.docs, plan[0], run, xs[0]);
      StartRequestIsSteps(s, xs[0]);
      var s' := Exec(s, RequestSteps(xs[0]));
      var rest := if ok then AttemptSteps(docs', run, plan[1..], xs[1..]) else [];
      ExecSplit(s, RequestSteps(xs[0]), rest);
      if ok {
        assert forall i | 0 <= i < |plan| - 1 :: plan[1..][i] == plan[i + 1];
        AttemptIsARun(s', run, plan[1..], xs[1..]);
      }
    }
  }

  /** The steps of `start` once its checks have passed. */
  function StartSteps(docs: Docs, run: Run, plan: seq<Op>, claim: Exchange, recheck: bool, xs: seq<Exchange>,
          net: Net): seq<Step>
    requires |plan| == |xs|
  {
    var (claimedDocs, claimed) := Request(docs, Claim(run), run, claim);
    [Start(run, plan)] + RequestSteps(claim) +
    if claimed then ClaimedSteps(claimedDocs, run, plan, xs, net) else VerifiedSteps(claimedDocs, run, recheck, net)
  }

  function ClaimedSteps(docs: Docs, run: Run, plan: seq<Op>, xs: seq<Exchange>, net: Net): seq<Step>
    requires |plan| == |xs|
  {
    var (started, ok) := Attempt(docs, run, plan, xs);
    AttemptSteps(docs, run, plan, xs) + if ok then [End] else PlanSteps(started, run, RecoveryPlan(run), false, net)
  }

  function VerifiedSteps(docs: Docs, run: Run, recheck: bool, net: Net): seq<Step> {
    var persisted := PersistedRun(docs);
    [Verify(recheck)]
    + if recheck && persisted.Found?
        && persisted.run.id == run.id then PlanSteps(docs, run, RecoveryPlan(run), false, net) else []
  }

  lemma OneStep(s: State, step: Step)
    ensures Exec(s, [step]) == Next(s, step)
  {
    assert Exec(Next(s, step), []) == Next(s, step);
  }

  /** The claim of a start: afterwards the controller goes on, or reads the claim back. */
  lemma ClaimIsARun(s: State, run: Run, plan: seq<Op>, claim: Exchange)
    requires s.ctl == RESTARTED && PersistedRun(s.docs) == NoRun && ValidRunId(run.id) && run.jobId.None?
            && PlanOk(run, plan)
    ensures var (docs, claimed) := Request(s.docs, Claim(run), run, claim);
            var s' := Exec(s, [Start(run, plan)] + RequestSteps(claim));
            && s'.docs == docs
            && s'.ctl == if claimed then Controller(Some(run), Starting, plan, None, false)
                         else Controller(Some(run), Verifying, [Claim(run)] + plan, None, false)
  {
    var s1 := Next(s, Start(run, plan));
    ExecSplit(s, [Start(run, plan)], RequestSteps(claim));
    OneStep(s, Start(run, plan));
    StartRequestIsSteps(s1, claim);
    assert ([Claim(run)] + plan)[1..] == plan;
  }

  ghost predicate EndsAs(s: State, docs: Docs, active: Option<Run>) {
    s.docs == docs && s.ctl == Controller(active, Resting, [], None, false)
  }

  lemma RecoveredIsARun(s: State, run: Run, net: Net)
    requires s.ctl == Controller(Some(run), Recovering, RecoveryPlan(run), None, false)
    ensures EndsAs(Exec(s, PlanSteps(s.docs, run, RecoveryPlan(run), false, net)), Recovered(s.docs, run, net).0,
            Recovered(s.docs, run, net).1)
  {
    RecoveryIsARun(s, run, net);
  }

  lemma StartedEnds(s: State, run: Run)
    requires s.ctl == Controller(Some(run), Starting, [], None, false)
    ensures EndsAs(Exec(s, [End]), s.docs, Some(run))
  {
    OneStep(s, End);
  }

  /** What a claimed start comes to, and its steps, after the writes of its plan. */
  lemma ClaimedCases(docs: Docs, run: Run, plan: seq<Op>, xs: seq<Exchange>, net: Net)
    requires |plan| == |xs|
    ensures var (started, ok) := Attempt(docs, run, plan, xs);
            var rest := if ok then [End] else PlanSteps(started, run, RecoveryPlan(run), false, net);
            && ClaimedSteps(docs, run, plan, xs, net) == AttemptSteps(docs, run, plan, xs) + rest
            && ClaimedOutcome(docs, run, plan, xs, net) == if ok then (started, Some(run), true)
                else Recovered(started, run, net)
  {
  }

  /** The state after the writes of the plan. */
  lemma AfterAttempt(s: State, run: Run, plan: seq<Op>, xs: seq<Exchange>) returns (s': State)
    requires |plan| == |xs| && PlanOk(run, plan) && s.ctl == Controller(Some(run), Starting, plan, None, false)
    ensures s' == Exec(s, AttemptSteps(s.docs, run, plan, xs)) && s'.docs == Attempt(s.docs, run, plan, xs).0
    ensures s'.ctl == if Attempt(s.docs, run, plan, xs).1 then Controller(Some(run), Starting, [], None, false)
                      else Controller(Some(run), Recovering, RecoveryPlan(run), None, false)
  {
    AttemptIsARun(s, run, plan, xs);
    s' := Exec(s, AttemptSteps(s.docs, run, plan, xs));
  }

  /** A claimed start, from its first write to rest. */
  lemma ClaimedStartIsARun(s: State, run: Run, plan: seq<Op>, xs: seq<Exchange>, net: Net)
    requires |plan| == |xs| && PlanOk(run, plan) && s.ctl == Controller(Some(run), Starting, plan, None, false)
    ensures var outcome := ClaimedOutcome(s.docs, run, plan, xs, net);
            EndsAs(Exec(s, ClaimedSteps(s.docs, run, plan, xs, net)), outcome.0, outcome.1)
  {
    ClaimedCases(s.docs, run, plan, xs, net);
    var s' := AfterAttempt(s, run, plan, xs);
    var (started, ok) := Attempt(s.docs, run, plan, xs);
    var steps := AttemptSteps(s.docs, run, plan, xs);
    if ok {
      ExecSplit(s, steps, [End]);
      StartedEnds(s', run);
    } else {
      ExecSplit(s, steps, PlanSteps(started, run, RecoveryPlan(run), false, net));
      RecoveredIsARun(s', run, net);
    }
  }

  /** A start whose claim was not acknowledged: the claim is read back, and recovered if it is there. */
  lemma VerifiedStartIsARun(s: State, run: Run, recheck: bool, net: Net)
    requires s.ctl.active == Some(run) && s.ctl.mode == Verifying
    ensures var persisted := PersistedRun(s.docs);
            var found := recheck && persisted.Found? && persisted.run.id == run.id;
            var outcome := if found then Recovered(s.docs, run, net) else (s.docs, None, false);
            EndsAs(Exec(s, VerifiedSteps(s.docs, run, recheck, net)), outcome.0, outcome.1)
  {
    var persisted := PersistedRun(s.docs);
    OneStep(s, Verify(recheck));
    if recheck && persisted.Found? && persisted.run.id == run.id {
      ExecSplit(s, [Verify(recheck)], PlanSteps(s.docs, run, RecoveryPlan(run), false, net));
      RecoveredIsARun(Next(s, Verify(recheck)), run, net);
    } else {
      assert [Verify(recheck)] + [] == [Verify(recheck)];
    }
  }

  /** `start` as a whole, claim, read-back and recovery included, is a run of the protocol that ends at rest. */
  lemma StartIsARun(s: State, run: Run, plan: seq<Op>, claim: Exchange, recheck: bool, xs: seq<Exchange>, net: Net)
    requires |plan| == |xs| && s.ctl == RESTARTED && PersistedRun(s.docs) == NoRun
    requires ValidRunId(run.id) && run.jobId.None? && PlanOk(run, plan)
    ensures var outcome := StartOutcome(s.docs, run, plan, claim, recheck, xs, net);
            EndsAs(Exec(s, StartSteps(s.docs, run, plan, claim, recheck, xs, net)), outcome.0, outcome.1)
  {
    ClaimIsARun(s, run, plan, claim);
    var first := [Start(run, plan)] + RequestSteps(claim);
    var (claimedDocs, claimed) := Request(s.docs, Claim(run), run, claim);
    if claimed {
      ExecSplit(s, first, ClaimedSteps(claimedDocs, run, plan, xs, net));
      ClaimedStartIsARun(Exec(s, first), run, plan, xs, net);
    } else {
      ExecSplit(s, first, VerifiedSteps(claimedDocs, run, recheck, net));
      VerifiedStartIsARun(Exec(s, first), run, recheck, net);
    }
  }

  // ----- `_recover` as a whole -----

  /** The steps of `_recover`: it reads the persisted run back when none is in memory. */
  function RecoverySteps(docs: Docs, active: Option<Run>, net: Net): seq<Step> {
    if active.Some? then [Step.Recover] + PlanSteps(docs, active.value, RecoveryPlan(active.value), false, net)
    else if !net.reload then []
    else if PersistedRun(docs).Found? then
      var run := PersistedRun(docs).run;
      [Reload] + PlanSteps(docs, run, RecoveryPlan(run), false, net)
    else [Reload]
  }

  /** The step system stands where the program does: at rest, with these documents and this run in memory. */
  ghost predicate Mirrors(s: State, docs: Docs, active: Option<Run>) {
    s.docs == docs && s.ctl == Controller(active, Resting, [], None, false)
  }

  lemma BegunIsARun(s: State, first: Step, run: Run, net: Net)
    requires Next(s, first) == s.(ctl := Controller(Some(run), Recovering, RecoveryPlan(run), None, false))
    ensures var (docs, failed) := RunPlan(s.docs, run, RecoveryPlan(run), false, net);
            Mirrors(Exec(s, [first] + PlanSteps(s.docs, run, RecoveryPlan(run), false, net)), docs,
                if failed then Some(run) else None)
  {
    var rest := PlanSteps(s.docs, run, RecoveryPlan(run), false, net);
    ExecSplit(s, [first], rest);
    OneStep(s, first);
    RecoveryIsARun(Next(s, first), run, net);
  }

  /** `_recover` is a run of the protocol that ends at rest, from a run in memory and from a restart alike. */
  lemma RecoverIsARun(s: State, history: seq<Run>, net: Net)
    requires Mirrors(s, s.docs, s.ctl.active)
    ensures var (docs, active, _, _) := RecoverOutcome(s.docs, s.ctl.active, history, net);
            Mirrors(Exec(s, RecoverySteps(s.docs, s.ctl.active, net)), docs, active)
  {
    var persisted := PersistedRun(s.docs);
    if s.ctl.active.Some? {
      BegunIsARun(s, Step.Recover, s.ctl.active.value, net);
    } else if net.reload && persisted.Found? {
      BegunIsARun(s, Reload, persisted.run, net);
    } else if net.reload {
      OneStep(s, Reload);
    }
  }

  // ----- A recovery whose requests all succeed -----

  /** Every request is delivered and acknowledged, and so is every service call of a run with these targets. */
  ghost predicate AllAnswer(net: Net, targets: seq<string>) {
    && net.reload && net.monitor == net.config == net.service == net.clear == Exchange(true, Acknowledged)
    && forall service | service in ["inventory", "database", "worker", "orders", "cnfc-edge", "library"]
                        && service in targets :: service in net.acks
  }

  lemma AnswersFor(net: Net, run: Run, op: Op)
    requires AllAnswer(net, run.targets)
    ensures net.For(op, run) == Exchange(true, Acknowledged)
  {
    if op.Notify? {
      forall service | service in Contacts(SERVICES, run.targets, true) ensures service in net.acks {
        ContactsMean(SERVICES, run.targets, true, service);
      }
    }
  }

  /** The first request of a clean sweep succeeds. */
  lemma SweepRequest(s: State, x: Exchange)
    requires RecoveringCleanly(s) && x == Exchange(true, Acknowledged)
    ensures var s' := Next(Next(s, Read), Finish(Acknowledged));
            Request(s.docs, s.ctl.todo[0], s.ctl.active.value, x) == (s'.docs, true)
  {
    SweepStep(s);
    ReadForSweep(s);
    NoFieldsInRecovery(s.ctl);
    RequestIsSteps(s, x);
  }

  /** The steps of a plan whose first request succeeds. */
  lemma PlanGoesOn(docs: Docs, docs': Docs, run: Run, todo: seq<Op>, net: Net)
    requires todo != [] && net.For(todo[0], run) == Exchange(true, Acknowledged)
    requires Request(docs, todo[0], run, Exchange(true, Acknowledged)) == (docs', true)
    ensures PlanSteps(docs, run, todo, false, net)
         == [Read, Finish(Acknowledged)] + PlanSteps(docs', run, todo[1..], false, net)
  {
  }

  lemma {:induction false} PlanIsSweep(s: State, run: Run, net: Net)
    requires RecoveringCleanly(s) && s.ctl.active == Some(run) && AllAnswer(net, run.targets)
    ensures PlanSteps(s.docs, run, s.ctl.todo, false, net) == Sweep(s.ctl.todo)
    decreases |s.ctl.todo|
  {
    var todo := s.ctl.todo;
    var s' := Next(Next(s, Read), Finish(Acknowledged));
    AnswersFor(net, run, todo[0]);
    SweepRequest(s, Exchange(true, Acknowledged));
    PlanGoesOn(s.docs, s'.docs, run, todo, net);
    if todo[0].Clear? {
      LastIsAlone(s);
    } else {
      SweepGoesOn(s);
      SweepStays(s);
      PlanIsSweep(s', run, net);
    }
  }

  lemma SweepStays(s: State)
    requires RecoveringCleanly(s)
    ensures Next(Next(s, Read), Finish(Acknowledged)).ctl.active == s.ctl.active
  {
    SweepStep(s);
  }

  lemma CleanRecovery(s: State, first: Step, run: Run, net: Net)
    requires RecoveringCleanly(Next(s, first)) && AllAnswer(net, run.targets) && Next(s, first).docs == s.docs
    requires Next(s, first).ctl == Controller(Some(run), Recovering, RecoveryPlan(run), None, false)
    ensures var t := Exec(s, [first] + PlanSteps(s.docs, run, RecoveryPlan(run), false, net));
            t.ctl == RESTARTED && Restored(t, Next(s, first).snap)
  {
    OneStep(s, first);
    ExecSplit(s, [first], PlanSteps(s.docs, run, RecoveryPlan(run), false, net));
    PlanIsSweep(Next(s, first), run, net);
    SweepRestores(Next(s, first));
  }

  lemma RetryShape(s: State, run: Run)
    requires Mirrors(s, s.docs, Some(run))
    ensures Next(s, Step.Recover) == s.(ctl := Controller(Some(run), Recovering, RecoveryPlan(run), None, false))
  {
  }

  lemma RetryRestores(s: State, run: Run, net: Net)
    requires Inv(s) && Mirrors(s, s.docs, Some(run)) && s.claim.Some? && s.edited == {} && AllAnswer(net, run.targets)
    ensures var t := Exec(s, RecoverySteps(s.docs, Some(run), net)); t.ctl == RESTARTED && Restored(t, s.snap)
  {
    RetryBegins(s);
    RetryShape(s, run);
    CleanRecovery(s, Step.Recover, run, net);
  }

  lemma ReloadRestores(s: State, run: Run, net: Net)
    requires Inv(s) && Mirrors(s, s.docs, None) && s.claim.Some? && s.edited == {} && AllAnswer(net, run.targets)
    requires PersistedRun(s.docs) == Found(run)
    ensures var t := Exec(s, RecoverySteps(s.docs, None, net)); t.ctl == RESTARTED && Restored(t, s.snap)
  {
    ReloadBegins(s, run);
    CleanRecovery(s, Reload, run, net);
  }

  /** From any reachable state of a claimed Lab that nobody edited, with the run in memory or after a restart: one
      recovery whose requests all succeed empties memory and puts everything back as it was at claim time. */
  lemma RecoveryRestores(s: State, net: Net)
    requires Reachable(s) && Mirrors(s, s.docs, s.ctl.active) && RunOwned(s) && s.edited == {}
    requires PersistedRun(s.docs).Found? ==> AllAnswer(net, PersistedRun(s.docs).run.targets)
    ensures var t := Exec(s, RecoverySteps(s.docs, s.ctl.active, net)); t.ctl == RESTARTED && Restored(t, s.snap)
  {
    ReachableInv(s);
    ClaimIsOnConfig(s);
    PersistedIsClaim(s);
    if s.ctl.active.Some? {
      RetryRestores(s, s.ctl.active.value, net);
    } else {
      ReloadRestores(s, PersistedRun(s.docs).run, net);
    }
  }

  lemma ReloadBegins(s: State, run: Run)
    requires Inv(s) && s.ctl == RESTARTED && s.claim.Some? && s.edited == {} && PersistedRun(s.docs) == Found(run)
    ensures RecoveringCleanly(Next(s, Reload)) && Next(s, Reload).snap == s.snap && Next(s, Reload).docs == s.docs
    ensures Next(s, Reload).ctl == Controller(Some(run), Recovering, RecoveryPlan(run), None, false)
  {
    RestartShape(s, run);
    assert Next(s, Crash) == s;
    RestartKeeps(s);
  }

  // ----- A recovery that reports success -----

  /** The steps of one request. */
  lemma RequestKeepsInv(s: State, x: Exchange)
    requires Inv(s)
    ensures Inv(Exec(s, RequestSteps(x)))
  {
    ExecInv(s, RequestSteps(x));
  }

  lemma AcknowledgedClear(s: State, x: Exchange)
    requires Working(s.ctl) && s.ctl.mode == Recovering && s.ctl.todo[0].Clear? && s.ctl.read.None?
    requires Request(s.docs, Clear, s.ctl.active.value, x).1
    ensures Exec(s, RequestSteps(x)).claim.None?
  {
    RequestUnfolds(s, x);
    FinishOfClear(s.(ctl := s.ctl.(read := Some(s.docs.config))), x.fate);
    assert Next(s, Read) == s.(ctl := s.ctl.(read := Some(s.docs.config)));
  }

  lemma FinishOfClear(s: State, fate: Fate)
    requires Working(s.ctl) && s.ctl.todo[0].Clear? && s.ctl.read == Some(s.docs.config)
    requires ClearRunClaim(s.docs.config, s.ctl.active.value.id).Write? && fate == Acknowledged
    ensures Next(s, Finish(fate)).claim.None?
  {
  }

  /** A recovery without a failure has cleared the claim. */
  lemma {:induction false} SuccessClears(s: State, run: Run, net: Net)
    requires Inv(s) && s.ctl == Controller(Some(run), Recovering, s.ctl.todo, None, s.ctl.errors)
    requires s.ctl.todo == [] ==> s.claim.None? || s.ctl.errors
    ensures !RunPlan(s.docs, run, s.ctl.todo, s.ctl.errors, net).1 ==>
              Exec(s, PlanSteps(s.docs, run, s.ctl.todo, s.ctl.errors, net)).claim.None?
    decreases |s.ctl.todo|
  {
    var todo, errors := s.ctl.todo, s.ctl.errors;
    if todo == [] || (todo[0].Clear? && errors) {
      OneStep(s, End);
    } else {
      var x := net.For(todo[0], run);
      var (docs', ok) := Request(s.docs, todo[0], run, x);
      var s' := Exec(s, RequestSteps(x));
      RequestKeepsInv(s, x);
      RequestUnfolds(s, x);
      RequestIsSteps(s, x);
      ExecSplit(s, RequestSteps(x), PlanSteps(docs', run, todo[1..], errors || !ok, net));
      if todo[0].Clear? {
        NoFieldsInRecovery(s.ctl);
        if ok {
          AcknowledgedClear(s, x);
        }
      } else {
        LastIsClear(s.ctl);
      }
      SuccessClears(s', run, net);
    }
  }

  lemma BegunClears(s: State, first: Step, run: Run, net: Net)
    requires Inv(s) && Next(s, first) == s.(ctl := Controller(Some(run), Recovering, RecoveryPlan(run), None, false))
    ensures !RunPlan(s.docs, run, RecoveryPlan(run), false, net).1 ==>
              Exec(s, [first] + PlanSteps(s.docs, run, RecoveryPlan(run), false, net)).claim.None?
  {
    NextInv(s, first);
    OneStep(s, first);
    ExecSplit(s, [first], PlanSteps(s.docs, run, RecoveryPlan(run), false, net));
    assert RecoveryPlan(run) != [];
    SuccessClears(Next(s, first), run, net);
  }

  lemma RetryEnds(s: State, run: Run, net: Net)
    requires Inv(s) && Mirrors(s, s.docs, Some(run)) && !RunPlan(s.docs, run, RecoveryPlan(run), false, net).1
    ensures Exec(s, RecoverySteps(s.docs, Some(run), net)).claim.None?
  {
    RetryShape(s, run);
    BegunClears(s, Step.Recover, run, net);
  }

  lemma SuccessEnds(s: State, history: seq<Run>, net: Net)
    requires Reachable(s) && Mirrors(s, s.docs, s.ctl.active) && RecoverOutcome(s.docs, s.ctl.active, history, net).3
    ensures Exec(s, RecoverySteps(s.docs, s.ctl.active, net)).claim.None?
  {
    ReachableInv(s);
    PersistedIsClaim(s);
    if s.ctl.active.Some? {
      RetryEnds(s, s.ctl.active.value, net);
    } else if PersistedRun(s.docs).Found? {
      BegunClears(s, Reload, PersistedRun(s.docs).run, net);
    } else {
      OneStep(s, Reload);
    }
  }

  lemma ClearedIsClean(t: State)
    requires Inv(t) && t.claim.None?
    ensures PersistedRun(t.docs) == NoRun && Unclaimed(t.docs.config)
    ensures forall r: Resource :: NoJournal(t.docs.At(r))
  {
    PersistedIsClaim(t);
    JournalsReady(t);
  }

  /** Over any edits and whatever the network does: a recovery that reports success leaves no claim and no journal. */
  lemma SuccessMeansClean(s: State, history: seq<Run>, net: Net)
    requires Reachable(s) && Mirrors(s, s.docs, s.ctl.active) && RecoverOutcome(s.docs, s.ctl.active, history, net).3
    ensures var docs := Exec(s, RecoverySteps(s.docs, s.ctl.active, net)).docs;
            PersistedRun(docs) == NoRun && Unclaimed(docs.config) && forall r: Resource :: NoJournal(docs.At(r))
  {
    ReachableInv(s);
    SuccessEnds(s, history, net);
    ExecInv(s, RecoverySteps(s.docs, s.ctl.active, net));
    ClearedIsClean(Exec(s, RecoverySteps(s.docs, s.ctl.active, net)));
  }

  /** Every look that a recovery of these targets takes is answered, and every service that it calls acknowledges. */
  ghost predicate AllHeard(net: Net, targets: seq<string>) {
    && net.config.readable && net.service.readable && net.clear.readable
    && ("exporter-monitor" in targets ==> net.monitor.readable)
    && forall service | service in ["inventory", "database", "worker", "orders", "cnfc-edge", "library"]
                        && service in targets :: service in net.acks
  }

  lemma {:induction false} FailureSticks(docs: Docs, run: Run, todo: seq<Op>, net: Net)
    ensures RunPlan(docs, run, todo, true, net).1
    decreases |todo|
  {
    if todo != [] && !todo[0].Clear? {
      FailureSticks(Request(docs, todo[0], run, net.For(todo[0], run)).0, run, todo[1..], net);
    }
  }

  lemma {:induction false} UnheardFails(docs: Docs, run: Run, todo: seq<Op>, errors: bool, net: Net, op: Op)
    requires op in todo && !net.For(op, run).readable
    ensures RunPlan(docs, run, todo, errors, net).1
    decreases |todo|
  {
    if !(todo[0].Clear? && errors) {
      var (docs', ok) := Request(docs, todo[0], run, net.For(todo[0], run));
      if todo[0] == op {
        FailureSticks(docs', run, todo[1..], net);
      } else {
        assert op in todo[1..];
        UnheardFails(docs', run, todo[1..], errors || !ok, net, op);
      }
    }
  }

  /** No recovery of a run succeeds unheard. */
  lemma SuccessIsHeard(docs: Docs, run: Run, net: Net)
    ensures RunPlan(docs, run, RecoveryPlan(run), false, net).1 || AllHeard(net, run.targets)
  {
    forall op | op in RecoveryPlan(run) && !net.For(op, run).readable
      ensures RunPlan(docs, run, RecoveryPlan(run), false, net).1
    {
      UnheardFails(docs, run, RecoveryPlan(run), false, net, op);
    }
    PlanHasAll(run);
    ServicesHeard(run, net);
  }

  lemma PlanHasAll(run: Run)
    ensures Restore(Config) in RecoveryPlan(run) && Restore(Service) in RecoveryPlan(run)
    ensures Notify in RecoveryPlan(run) && Clear in RecoveryPlan(run)
    ensures "exporter-monitor" in run.targets ==> Restore(Monitor) in RecoveryPlan(run)
  {
    assert "exporter-monitor" in run.targets ==> RecoveryPlan(run)[0] == Restore(Monitor);
  }

  lemma ServicesHeard(run: Run, net: Net)
    ensures net.For(Notify, run).readable ==>
              forall service | service in ["inventory", "database", "worker", "orders", "cnfc-edge", "library"]
                               && service in run.targets :: service in net.acks
  {
    forall service ensures service in Contacts(SERVICES, run.targets, true)
        <==> service in SERVICES && IsContacted(service, run.targets, true) {
      ContactsMean(SERVICES, run.targets, true, service);
    }
  }

  // ----- What the class promises -----

  /** What a recovery promises about documents and memory. It is a run of the protocol; success leaves no claim and no
      journal; and on an unedited claimed Lab whose requests all succeed it succeeds, with everything back as it was at
      claim time, whether the run was in memory or had to be read back. */
  ghost predicate Guaranteed(docs: Docs, active: Option<Run>, net: Net, docs': Docs, active': Option<Run>, ok: bool) {
    && (forall s: State | Mirrors(s, docs, active) ::
          Mirrors(Exec(s, RecoverySteps(docs, active, net)), docs', active'))
    && (forall s: State | Mirrors(s, docs, active) && Reachable(s) && ok ::
          active'.None? && PersistedRun(docs') == NoRun && forall r: Resource :: NoJournal(docs'.At(r)))
    && (forall s: State | Mirrors(s, docs, active) && Reachable(s) && CanSucceed(s, net) ::
          ok && active'.None? && forall r: Resource :: NoJournal(docs'.At(r)) && RestoredTo(docs'.At(r), s.snap.At(r)))
  }

  /** The Lab is claimed, nobody edited it since, and every request is answered. */
  ghost predicate CanSucceed(s: State, net: Net) {
    && RunOwned(s) && s.edited == {}
    && (PersistedRun(s.docs).Found? ==> AllAnswer(net, PersistedRun(s.docs).run.targets))
  }

  lemma OutcomeOk(docs: Docs, active: Option<Run>, history: seq<Run>, net: Net)
    ensures var outcome := RecoverOutcome(docs, active, history, net);
            && (outcome.3 ==> outcome.1.None?)
            && (outcome.1.None? && (active.Some? || (net.reload && PersistedRun(docs).Found?)) ==> outcome.3)
  {
  }

  lemma RecoveryIsGuaranteed(docs: Docs, active: Option<Run>, history: seq<Run>, net: Net)
    ensures var (docs', active', _, ok) := RecoverOutcome(docs, active, history, net);
            Guaranteed(docs, active, net, docs', active', ok)
  {
    var (docs', active', _, ok) := RecoverOutcome(docs, active, history, net);
    OutcomeOk(docs, active, history, net);
    forall s: State | Mirrors(s, docs, active)
      ensures Mirrors(Exec(s, RecoverySteps(docs, active, net)), docs', active')
    {
      RecoverIsARun(s, history, net);
    }
    forall s: State | Mirrors(s, docs, active) && Reachable(s) && ok
      ensures active'.None? && PersistedRun(docs') == NoRun && forall r: Resource :: NoJournal(docs'.At(r))
    {
      SuccessMeansClean(s, history, net);
    }
    forall s: State | Mirrors(s, docs, active) && Reachable(s) && CanSucceed(s, net)
      ensures ok && active'.None?
      ensures forall r: Resource :: NoJournal(docs'.At(r)) && RestoredTo(docs'.At(r), s.snap.At(r))
    {
      RecoveryRestores(s, net);
      ClaimIsFound(s);
    }
  }

  lemma ClaimIsFound(s: State)
    requires Reachable(s) && RunOwned(s)
    ensures PersistedRun(s.docs).Found?
  {
    ReachableInv(s);
    ClaimIsOnConfig(s);
    PersistedIsClaim(s);
  }
}
