/** `ControlState` of app/control.py: the controller as one program, its requests answered by the network. */
module Control {
  import opened Json
  import opened VersionedStore
  import opened FieldJournal
  import opened RunClaim
  import opened LabProtocol
  import opened ControlRuns
  import opened ControlStarts
  import opened Wrappers

  class Cluster {
    var docs: Docs

    constructor (docs: Docs)
      ensures this.docs == docs
    {
      this.docs := docs;
    }

    method Patch(r: Resource, patch: Patch, fate: Fate) returns (ok: bool)
      modifies this
      ensures (docs, ok) == (var (after, ok') := Send(old(docs).At(r), patch, fate); (old(docs).With(r, after), ok'))
    {
      var (after, acknowledged) := Send(docs.At(r), patch, fate);
      docs := docs.With(r, after);
      ok := acknowledged;
    }
  }

  class ControlState {
    const cluster: Cluster
    var active: Option<Run>
    var history: seq<Run>
    var recoveryError: bool

    constructor (cluster: Cluster)
      ensures this.cluster == cluster && active == None && history == [] && !recoveryError
    {
      this.cluster := cluster;
      active, history, recoveryError := None, [], false;
    }

    method ClaimRun(run: Run, x: Exchange) returns (ok: bool)
      modifies cluster
      ensures (cluster.docs, ok) == Request(old(cluster.docs), Claim(run), run, x)
    {
      if !x.readable { return false; }
      var current := cluster.docs.config;
      if Truthy(Get(current.ann, RunOwner)) { return false; }
      if Truthy(Get(current.ann, ProbeOwner)) { return false; }
      ok := cluster.Patch(Config, Patch(current.version, ClaimEntries(run), map[]), x.fate);
    }

    method ClaimFields(r: Resource, updates: map<Name, Json>, x: Exchange) returns (ok: bool)
      requires active.Some?
      modifies cluster
      ensures (cluster.docs, ok) == Request(old(cluster.docs), Fields(r, updates), active.value, x)
    {
      if !x.readable { return false; }
      var current, owner := cluster.docs.At(r), active.value.id;
      var existing := Get(current.ann, FieldOwner);
      if Truthy(existing) && existing != Text(owner) { return false; }
      if r == Config && Get(current.ann, RunOwner) != Text(owner) { return false; }
      var baseline, applied := map[], map[];
      if existing == Text(owner) {
        if !Decodable(current.ann, FieldBaseline) || !Decodable(current.ann, FieldApplied) { return false; }
        baseline, applied := Decoded(current.ann, FieldBaseline), Decoded(current.ann, FieldApplied);
      }
      baseline, applied := ExtendJournal(current.fields, updates, baseline, applied);
      var patch := Patch(current.version, current.ann + JournalEntries(owner, baseline, applied), updates);
      ok := cluster.Patch(r, patch, x.fate);
    }

    method RestoreOwnedFields(r: Resource, x: Exchange) returns (ok: bool)
      requires active.Some?
      modifies cluster
      ensures (cluster.docs, ok) == Request(old(cluster.docs), Restore(r), active.value, x)
    {
      if !x.readable { return false; }
      var current, expected := cluster.docs.At(r), active.value.id;
      var owner := Get(current.ann, FieldOwner);
      if r == Config && Get(current.ann, RunOwner) != Text(expected) { return false; }
      if !Truthy(owner) { return true; }
      if owner != Text(expected) { return false; }
      if !Decodable(current.ann, FieldBaseline) || !Decodable(current.ann, FieldApplied) { return false; }
      var edited, restore := CollectRestore(current.fields, Decoded(current.ann, FieldBaseline),
          Decoded(current.ann, FieldApplied));
      if edited { return false; }
      ok := cluster.Patch(r, Patch(current.version, current.ann + JOURNAL, restore), x.fate);
    }

    method PersistJobId(jobId: int, x: Exchange) returns (ok: bool)
      requires active.Some?
      modifies cluster
      ensures (cluster.docs, ok) == Request(old(cluster.docs), Job(jobId), active.value, x)
    {
      if !x.readable { return false; }
      var current := cluster.docs.config;
      if Get(current.ann, RunOwner) != Text(active.value.id) { return false; }
      ok := cluster.Patch(Config, Patch(current.version, current.ann[RunJobId := Encoded(Number(jobId))], map[]),
          x.fate);
    }

    method ClearRunClaim(x: Exchange) returns (ok: bool)
      requires active.Some?
      modifies cluster
      ensures (cluster.docs, ok) == Request(old(cluster.docs), Clear, active.value, x)
    {
      if !x.readable { return false; }
      var current := cluster.docs.config;
      if Get(current.ann, RunOwner) != Text(active.value.id) { return false; }
      ok := cluster.Patch(Config, Patch(current.version, current.ann + CLAIM, map[]), x.fate);
    }

    /** One write of `_start`. */
    method Do(op: Op, x: Exchange) returns (ok: bool)
      requires active.Some? && (op.Fields? || op.Job? || op.Notify?)
      modifies cluster
      ensures (cluster.docs, ok) == Request(old(cluster.docs), op, active.value, x)
    {
      match op {
        case Fields(r, updates) => ok := ClaimFields(r, updates, x);
        case Job(jobId) => ok := PersistJobId(jobId, x);
        case Notify => ok := x.readable;
      }
    }

    /** `start`, for a run whose plan is `plan`; `healthy` says that the node, memory and service checks pass. */
    method Start(run: Run, plan: seq<Op>, healthy: bool, claim: Exchange, recheck: bool, xs: seq<Exchange>, net: Net)
      returns (ok: bool)
      requires |plan| == |xs| && PlanOk(run, plan)
      modifies this`active, this`history, this`recoveryError, cluster
      ensures if old(active).Some? || !healthy || PersistedRun(old(cluster.docs)) != NoRun
              then !ok && cluster.docs == old(cluster.docs) && active == old(active)
              else (cluster.docs, active, ok) == StartOutcome(old(cluster.docs), run, plan, claim, recheck, xs, net)
      ensures ValidRunId(run.id) && run.jobId.None? ==>
                StartPromised(old(cluster.docs), old(active), run, plan, healthy, claim, recheck, xs, net,
                              cluster.docs, active, ok)
    {
      if ValidRunId(run.id) && run.jobId.None? {
        StartIsPromisedIf(cluster.docs, active, run, plan, healthy, claim, recheck, xs, net);
      }
      if active.Some? || !healthy || PersistedRun(cluster.docs) != NoRun { return false; }
      active := Some(run);
      var claimed := ClaimRun(run, claim);
      if !claimed {
        var persisted := PersistedRun(cluster.docs);
        if recheck && persisted.Found? && persisted.run.id == run.id {
          var _ := Recover(net);
        } else {
          active := None;
        }
        return false;
      }
      ghost var claimedDocs := cluster.docs;
      for i := 0 to |plan|
        invariant active == Some(run)
        invariant Attempt(claimedDocs, run, plan, xs) == Attempt(cluster.docs, run, plan[i..], xs[i..])
      {
        assert plan[i..][1..] == plan[i + 1..] && xs[i..][1..] == xs[i + 1..];
        var done := Do(plan[i], xs[i]);
        if !done {
          var _ := Recover(net);
          return false;
        }
      }
      ok := true;
    }

    /** The service calls of `_recover`, in order. */
    method ContactServices(services: seq<string>, configRestored: bool,
            acks: set<string>) returns (contacted: seq<string>, ok: bool)
      requires active.Some?
      ensures contacted == Contacts(services, active.value.targets, configRestored)
      ensures ok == AllAcknowledge(contacted, acks)
    {
      contacted, ok := [], true;
      for i := 0 to |services|
        invariant contacted == Contacts(services[..i], active.value.targets, configRestored)
        invariant ok == AllAcknowledge(contacted, acks)
      {
        assert services[..i + 1][..i] == services[..i];
        if IsContacted(services[i], active.value.targets, configRestored) {
          contacted := contacted + [services[i]];
          ok := ok && services[i] in acks;
        }
      }
      assert services[..|services|] == services;
    }

    /** The three restores of `_recover`: each is attempted even when an earlier one failed. */
    method RestoreAll(net: Net) returns (failed: bool, configRestored: bool)
      requires active.Some?
      modifies cluster
      ensures RunPlan(old(cluster.docs), active.value, RecoveryPlan(active.value), false, net)
           == RunPlan(cluster.docs, active.value, AFTER_SERVICE, failed, net)
      ensures configRestored == ConfigRestored(old(cluster.docs), active.value, net)
      ensures !configRestored ==> failed
    {
      var run := active.value;
      PlanIsChain(run);
      failed := false;
      if MONITOR_TARGET in run.targets {
        NextOp(cluster.docs, run, Restore(Monitor), AFTER_MONITOR, failed, net);
        var done := RestoreOwnedFields(Monitor, net.monitor);
        failed := !done;
      }
      NextOp(cluster.docs, run, Restore(Config), AFTER_CONFIG, failed, net);
      configRestored := RestoreOwnedFields(Config, net.config);
      failed := failed || !configRestored;
      NextOp(cluster.docs, run, Restore(Service), AFTER_SERVICE, failed, net);
      var done := RestoreOwnedFields(Service, net.service);
      failed := failed || !done;
    }

    /** The owned part of `_recover`: the restores, the services, and the claim last and only without any error. */
    method RecoverOwned(net: Net) returns (failed: bool, contacted: seq<string>)
      requires active.Some?
      modifies cluster
      ensures (cluster.docs, failed) == RunPlan(old(cluster.docs), active.value, RecoveryPlan(active.value), false, net)
      ensures contacted == Called(active.value.targets, ConfigRestored(old(cluster.docs), active.value, net))
    {
      var run := active.value;
      ContactsAreCalled(run.targets, true);
      ContactsAreCalled(run.targets, false);
      var configRestored, acknowledged;
      failed, configRestored := RestoreAll(net);
      ServicesThenClear(cluster.docs, run, failed, net);
      contacted, acknowledged := ContactServices(SERVICES, configRestored, net.acks);
      failed := failed || !acknowledged;
      if !failed {
        var done := ClearRunClaim(net.clear);
        failed := !done;
      }
    }

    /** `_recover`: with no run in memory the persisted one is taken up. */
    method Recover(net: Net) returns (ok: bool)
      modifies this`active, this`history, this`recoveryError, cluster
      ensures (cluster.docs, active, history, ok) == RecoverOutcome(old(cluster.docs), old(active), old(history), net)
      ensures ok <==> !recoveryError
      ensures Guaranteed(old(cluster.docs), old(active), net, cluster.docs, active, ok)
      ensures old(active).None? && !net.reload ==> !ok
      ensures ok && (old(active).Some? || PersistedRun(old(cluster.docs)).Found?) ==>
                AllHeard(net, (if old(active).Some? then old(active).value
                               else PersistedRun(old(cluster.docs)).run).targets)
      ensures !ok || (old(active).None? && !PersistedRun(old(cluster.docs)).Found?) ==> history == old(history)
      ensures ok && (old(active).Some? || PersistedRun(old(cluster.docs)).Found?) ==>
                var all := old(history) + [if old(active).Some? then old(active).value
                                           else PersistedRun(old(cluster.docs)).run];
                history == if |all| > 20 then all[|all| - 20..] else all
    {
      RecoveryIsGuaranteed(cluster.docs, active, history, net);
      if active.None? {
        if !net.reload {
          recoveryError := true;
          return false;
        }
        match PersistedRun(cluster.docs) {
          case Invalid => recoveryError := true; return false;
          case NoRun => recoveryError := false; return true;
          case Found(run) => active := Some(run);
        }
      }
      var run := active.value;
      SuccessIsHeard(cluster.docs, run, net);
      var failed, _ := RecoverOwned(net);
      recoveryError := failed;
      if !failed {
        history := LastTwenty(history + [run]);
        active := None;
      }
      ok := !failed;
    }

    /** `recover`: a caller that expects a certain run touches no other; `peek` says that its look at the claim
        is answered. */
    method RecoverExpected(expected: Option<string>, peek: bool, net: Net) returns (answer: Answer)
      modifies this`active, this`history, this`recoveryError, cluster
      ensures var docs, was := old(cluster.docs), old(active);
              var blind := was.None? && (!peek || PersistedRun(docs) == Invalid);
              var other := expected.Some? && (blind || OwnerOf(docs, was) != expected);
              && (other ==> cluster.docs == docs && active == was && history == old(history))
              && (other ==> answer == if !blind && OwnerOf(docs, was).None? then Answered(true) else Raised)
              && (!other ==>
                    answer.Answered?
                    && (cluster.docs, active, history, answer.ok) == RecoverOutcome(docs, was, old(history), net))
    {
      if expected.Some? {
        var owner := None;
        if active.Some? {
          owner := Some(active.value.id);
        } else {
          if !peek { return Raised; }
          match PersistedRun(cluster.docs) {
            case Invalid => return Raised;
            case NoRun =>
            case Found(run) => owner := Some(run.id);
          }
        }
        if owner.None? { return Answered(true); }
        if owner != expected { return Raised; }
      }
      var ok := Recover(net);
      answer := Answered(ok);
    }
  }
}
