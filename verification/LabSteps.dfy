/** Every step of the Lab protocol keeps the invariant. */
module LabSteps {
  import opened Json
  import opened VersionedStore
  import opened FieldJournal
  import opened RunClaim
  import opened LabProtocol
  import opened LabInvariant
  import opened Wrappers

  lemma DocsInvWith(s: State, r: Resource, after: Doc)
    requires DocsInv(s) && DocInv(after, r, s.claim, s.snap.At(r), r in s.edited)
    requires r == Config ==> ConfigInv(after, s.claim)
    requires r != Service ==> Get(after.ann, ProbeOwner) == Get(s.docs.At(r).ann, ProbeOwner)
    ensures DocsInv(s.(docs := s.docs.With(r, after)))
  {
    var s' := s.(docs := s.docs.With(r, after));
    forall r': Resource ensures DocInv(s'.docs.At(r'), r', s.claim, s.snap.At(r'), r' in s.edited) {
      assert DocInv(s.docs.At(r'), r', s.claim, s.snap.At(r'), r' in s.edited);
    }
    assert Stored(s'.docs.At(Monitor)) && Stored(s.docs.At(Monitor));
  }

  lemma JournalsReady(s: State)
    requires DocsInv(s)
    ensures s.claim.Some? ==> forall r: Resource | r == Monitor && MONITOR_TARGET !in s.claim.value.targets ::
            NoJournal(s.docs.At(r))
    ensures s.claim.None? ==> forall r: Resource :: NoJournal(s.docs.At(r))
  {
    forall r: Resource ensures s.claim.None? ==> NoJournal(s.docs.At(r)) {
      assert DocInv(s.docs.At(r), r, s.claim, s.snap.At(r), r in s.edited);
    }
    assert DocInv(s.docs.At(Monitor), Monitor, s.claim, s.snap.At(Monitor), Monitor in s.edited);
  }

  /** An exception, or a PATCH that did not land. */
  lemma RaiseStepInv(s: State)
    requires Inv(s) && Working(s.ctl)
    ensures Inv(s.(ctl := Raise(s.ctl)))
  {
    JournalsReady(s);
    RaiseInv(s.ctl, s.docs, s.claim);
  }

  /** The two ways on after a landed write that leaves the claim as it is. */
  lemma LandedInv(s: State, s0: State, fate: Fate)
    requires DocsInv(s) && RunnersInv(s.docs, s.runners) && Working(s0.ctl) && s.ctl == s0.ctl.(read := None)
    requires CtlInv(s.ctl, s.docs, s.claim) && !s.ctl.todo[0].Claim?
    requires s.ctl.todo[0].Restore? ==> NoJournal(s.docs.At(s.ctl.todo[0].r))
    ensures Inv(s.(ctl := if fate == Acknowledged then Advance(s0.ctl) else Raise(s0.ctl)))
  {
    JournalsReady(s);
    assert Raise(s.ctl) == Raise(s0.ctl) && Advance(s.ctl) == Advance(s0.ctl);
    if fate == Acknowledged {
      AdvanceInv(s.ctl, s.docs, s.claim);
    } else {
      RaiseInv(s.ctl, s.docs, s.claim);
    }
  }

  lemma RunnersSeeControllerWrite(docs: Docs, r: Resource, after: Doc, runners: map<string, Runner>)
    requires RunnersInv(docs, runners) && ReadOf(docs.At(r), after)
    requires r != Service ==> Get(after.ann, ProbeOwner) == Get(docs.At(r).ann, ProbeOwner)
    ensures RunnersInv(docs.With(r, after), runners)
  {
    RunnersUndisturbed(docs, docs.With(r, after), runners);
  }

  predicate Lands(s: State, fate: Fate) {
    Working(s.ctl) && s.ctl.read.Some? && fate != Dropped
        && Decide(s.ctl.todo[0], s.ctl.read.value, s.ctl.active.value).Write?
    && s.ctl.read.value.version == s.docs.At(Target(s.ctl.todo[0])).version
  }

  /** A landed write was decided on the very document it lands on. */
  lemma FinishLanded(s: State, fate: Fate)
    requires Inv(s) && Lands(s, fate)
    ensures var op, run := s.ctl.todo[0], s.ctl.active.value;
            var current := s.docs.At(Target(op));
            var verdict := Decide(op, current, run);
            && verdict.Write? && verdict.patch.version == current.version && s.ctl.read.value == current
            && ReadOf(current, Carry(current, verdict))
            && FinishStep(s, fate) == State(s.docs.With(Target(op), Carry(current, verdict)),
                                            if fate == Acknowledged then Advance(s.ctl) else Raise(s.ctl), s.runners,
                                            ClaimAfter(s.claim, op),
                                            if op.Claim? then s.docs else s.snap, if op.Claim? then {} else s.edited)
  {
  }

  /** A landed write that keeps the claim, given what the document it leaves satisfies. */
  lemma FinishKeepsClaim(s: State, fate: Fate, after: Doc)
    requires Inv(s) && Lands(s, fate) && !s.ctl.todo[0].Claim? && !s.ctl.todo[0].Clear?
    requires var r := Target(s.ctl.todo[0]);
             && after == Carry(s.docs.At(r), Decide(s.ctl.todo[0], s.docs.At(r), s.ctl.active.value))
             && DocInv(after, r, s.claim, s.snap.At(r), r in s.edited)
             && (r == Config ==> ConfigInv(after, s.claim))
             && Get(after.ann, ProbeOwner) == Get(s.docs.At(r).ann, ProbeOwner)
             && (s.ctl.mode == Recovering || s.ctl.todo[0].Restore? ==> NoJournal(after))
    ensures Inv(FinishStep(s, fate))
  {
    var r := Target(s.ctl.todo[0]);
    FinishLanded(s, fate);
    DocsInvWith(s, r, after);
    RunnersSeeControllerWrite(s.docs, r, after, s.runners);
    var landed := s.(docs := s.docs.With(r, after), ctl := s.ctl.(read := None));
    ReadUsedUp(s.ctl, s.docs, s.claim, r, after);
    LandedInv(landed, s, fate);
  }

  lemma ReadUsedUp(c: Controller, docs: Docs, claim: Option<Run>, r: Resource, after: Doc)
    requires CtlInv(c, docs, claim) && (c.mode == Recovering ==> NoJournal(after))
    ensures CtlInv(c.(read := None), docs.With(r, after), claim)
  {
    forall r': Resource ensures c.mode == Recovering && NoJournal(docs.At(r'))
        ==> NoJournal(docs.With(r, after).At(r')) {}
  }

  lemma FinishFields(s: State, fate: Fate)
    requires Inv(s) && Lands(s, fate) && s.ctl.todo[0].Fields?
    ensures Inv(FinishStep(s, fate))
  {
    if s.ctl.mode == Recovering {
      NoFieldsInRecovery(s.ctl);
    }
    var op, run := s.ctl.todo[0], s.claim.value;
    var r, current := op.r, s.docs.At(op.r);
    assert DocInv(current, r, s.claim, s.snap.At(r), r in s.edited);
    assert r == Config ==> Get(current.ann, RunOwner) == ClaimEntries(run)[RunOwner];
    FieldsLand(current, r, run, op.updates, s.snap.At(r), r in s.edited);
    var after := Carry(current, ClaimFields(current, r, run.id, op.updates));
    FieldsKeepConfig(s, r, after);
    FinishKeepsClaim(s, fate, after);
  }

  lemma WrittenHasJournal(doc: Doc, r: Resource, owner: string)
    requires RestoreFields(doc, r, owner).Write?
    ensures Get(doc.ann, FieldOwner) == Text(owner)
  {
  }

  lemma FinishRestore(s: State, fate: Fate)
    requires Inv(s) && Lands(s, fate) && s.ctl.todo[0].Restore?
    ensures Inv(FinishStep(s, fate))
  {
    FinishLanded(s, fate);
    var op, run := s.ctl.todo[0], s.ctl.active.value;
    var r, current := op.r, s.docs.At(op.r);
    assert DocInv(current, r, s.claim, s.snap.At(r), r in s.edited);
    WrittenHasJournal(current, r, run.id);
    RestoreLands(current, r, s.claim.value, s.snap.At(r), r in s.edited);
    var after := Carry(current, RestoreFields(current, r, run.id));
    FieldsKeepConfig(s, r, after);
    FinishKeepsClaim(s, fate, after);
  }

  lemma FinishJob(s: State, fate: Fate)
    requires Inv(s) && Lands(s, fate) && s.ctl.todo[0].Job?
    ensures Inv(FinishStep(s, fate))
  {
    if s.ctl.mode == Recovering {
      NoFieldsInRecovery(s.ctl);
    }
    var op, run := s.ctl.todo[0], s.claim.value;
    var current := s.docs.config;
    assert DocInv(s.docs.At(Config), Config, s.claim, s.snap.At(Config), Config in s.edited);
    JobLands(current, run, op.jobId);
    var after := Carry(current, PersistJobId(current, run.id, op.jobId));
    JobKeepsDoc(current, after, s.claim, s.snap.config, Config in s.edited);
    FinishKeepsClaim(s, fate, after);
  }

  /** Annotations that read the same are the same. */
  lemma SameNames(doc: Doc, after: Doc)
    requires Stored(doc) && Stored(after)
    requires forall name | name != RunJobId :: Get(after.ann, name) == Get(doc.ann, name)
    ensures forall name | JournalName(name) ::
              (name in after.ann <==> name in doc.ann) && Get(after.ann, name) == Get(doc.ann, name)
  {
    forall name | JournalName(name) ensures name in after.ann <==> name in doc.ann {
      assert Get(after.ann, name) == Get(doc.ann, name);
    }
  }

  lemma JobKeepsDoc(doc: Doc, after: Doc, claim: Option<Run>, before: Doc, edited: bool)
    requires DocInv(doc, Config, claim, before, edited) && Stored(after) && after.fields == doc.fields
    requires forall name | name != RunJobId :: Get(after.ann, name) == Get(doc.ann, name)
    ensures DocInv(after, Config, claim, before, edited)
  {
    SameNames(doc, after);
    assert Get(after.ann, FieldOwner) == Get(doc.ann, FieldOwner);
    assert Get(after.ann, FieldBaseline) == Get(doc.ann, FieldBaseline);
    assert Get(after.ann, FieldApplied) == Get(doc.ann, FieldApplied);
  }

  /** A document nobody journaled is its own way back from the moment the claim lands. */
  lemma UnjournaledDoc(doc: Doc, r: Resource, run: Run, before: Doc)
    requires Stored(doc) && Stored(before) && NoJournal(doc) && doc.fields == before.fields
    requires forall name | !LabName(name) :: Get(doc.ann, name) == Get(before.ann, name)
    ensures DocInv(doc, r, Some(run), before, false)
  {
  }

  /** A document at the moment a claim lands is its own way back. */
  lemma SnapshotDoc(s: State, run: Run, r: Resource)
    requires DocsInv(s) && s.claim.None?
    ensures DocInv(s.docs.At(r), r, Some(run), s.docs.At(r), false)
  {
    assert DocInv(s.docs.At(r), r, s.claim, s.snap.At(r), r in s.edited);
    UnjournaledDoc(s.docs.At(r), r, run, s.docs.At(r));
  }

  lemma ClaimedConfigDoc(s: State, run: Run)
    requires DocsInv(s) && s.claim.None? && ValidRunId(run.id) && run.jobId.None? && ClaimRun(s.docs.config, run).Write?
    ensures var after := Carry(s.docs.config, ClaimRun(s.docs.config, run));
            && Get(after.ann, ProbeOwner) == Get(s.docs.config.ann, ProbeOwner)
            && DocInv(after, Config, Some(run), s.docs.config, false) && ConfigInv(after, Some(run))
  {
    assert DocInv(s.docs.At(Config), Config, s.claim, s.snap.At(Config), Config in s.edited);
    ClaimLands(s.docs.config, run);
    UnjournaledDoc(Carry(s.docs.config, ClaimRun(s.docs.config, run)), Config, run, s.docs.config);
  }

  lemma ClaimedDocs(s: State, run: Run)
    requires DocsInv(s) && s.claim.None? && ValidRunId(run.id) && run.jobId.None? && ClaimRun(s.docs.config, run).Write?
    ensures var after := Carry(s.docs.config, ClaimRun(s.docs.config, run));
            && Get(after.ann, ProbeOwner) == Get(s.docs.config.ann, ProbeOwner)
            && DocsInv(s.(docs := s.docs.With(Config, after), claim := Some(run), snap := s.docs, edited := {}))
  {
    ClaimedConfigDoc(s, run);
    SnapshotDoc(s, run, Service);
    SnapshotDoc(s, run, Monitor);
    var after := Carry(s.docs.config, ClaimRun(s.docs.config, run));
    assert MarkInv(after, s.docs.monitor);
    ThreeDocs(Docs(after, s.docs.service, s.docs.monitor), Some(run), s.docs, {});
  }

  lemma ThreeDocs(docs: Docs, claim: Option<Run>, snap: Docs, edited: set<Resource>)
    requires DocInv(docs.config, Config, claim, snap.config, Config in edited)
    requires DocInv(docs.service, Service, claim, snap.service, Service in edited)
    requires DocInv(docs.monitor, Monitor, claim, snap.monitor, Monitor in edited)
    ensures forall r: Resource :: DocInv(docs.At(r), r, claim, snap.At(r), r in edited)
  {
    forall r: Resource ensures DocInv(docs.At(r), r, claim, snap.At(r), r in edited) {
      match r case Config => case Service => case Monitor =>
    }
  }

  /** The claim lands: history starts over, with nothing journaled anywhere. */
  lemma FinishClaim(s: State, fate: Fate)
    requires Inv(s) && Lands(s, fate) && s.ctl.todo[0].Claim?
    ensures Inv(FinishStep(s, fate))
  {
    if s.ctl.mode == Recovering {
      NoFieldsInRecovery(s.ctl);
    }
    FinishLanded(s, fate);
    var run, current := s.ctl.active.value, s.docs.config;
    ClaimedDocs(s, run);
    RunnersSeeControllerWrite(s.docs, Config, Carry(current, ClaimRun(current, run)), s.runners);
    ClaimedController(s.ctl, FinishStep(s, fate).docs, run, fate);
  }

  lemma ClaimedController(c: Controller, docs: Docs, run: Run, fate: Fate)
    requires Working(c) && c.mode == Starting && c.todo[0] == Claim(run) && c.active == Some(run)
    requires ValidRunId(run.id) && run.jobId.None? && PlanOk(run, c.todo[1..])
    ensures CtlInv(if fate == Acknowledged then Advance(c) else Raise(c), docs, Some(run))
  {
    var rest := c.todo[1..];
    assert rest != [] ==> !rest[0].Claim?;
  }

  lemma ClearedDocs(s: State)
    requires DocsInv(s) && s.claim.Some? && forall r: Resource :: NoJournal(s.docs.At(r))
    ensures var verdict := ClearRunClaim(s.docs.config, s.claim.value.id);
            && verdict.Write?
            && var after := Carry(s.docs.config, verdict);
            && Get(after.ann, ProbeOwner) == Get(s.docs.config.ann, ProbeOwner) && NoJournal(after)
            && DocsInv(s.(docs := s.docs.With(Config, after), claim := None))
  {
    var current := s.docs.config;
    assert DocInv(s.docs.At(Config), Config, s.claim, s.snap.At(Config), Config in s.edited);
    ClearLands(current, s.claim.value);
    var after := Carry(current, ClearRunClaim(current, s.claim.value.id));
    assert NoJournal(s.docs.At(Config));
    forall name | JournalName(name) ensures name !in after.ann {
      assert Get(after.ann, name) == Get(current.ann, name);
    }
    var s' := s.(docs := s.docs.With(Config, after), claim := None);
    forall r: Resource ensures DocInv(s'.docs.At(r), r, None, s.snap.At(r), r in s.edited) {
      assert DocInv(s.docs.At(r), r, s.claim, s.snap.At(r), r in s.edited);
      assert NoJournal(s.docs.At(r));
      match r case Config => case Service => case Monitor =>
    }
  }

  /** The claim is cleared only once nothing is journaled anywhere. */
  lemma FinishClear(s: State, fate: Fate)
    requires Inv(s) && Lands(s, fate) && s.ctl.todo[0].Clear?
    ensures Inv(FinishStep(s, fate))
    ensures s.claim.Some? && forall r: Resource :: NoJournal(s.docs.At(r))
  {
    FinishLanded(s, fate);
    NothingLeftToRestore(s);
    var current := s.docs.config;
    ClearedDocs(s);
    var after := Carry(current, ClearRunClaim(current, s.claim.value.id));
    RunnersSeeControllerWrite(s.docs, Config, after, s.runners);
    ClearedController(s.ctl, s.docs, after, fate);
  }

  lemma NothingLeftToRestore(s: State)
    requires Inv(s) && Working(s.ctl) && s.ctl.todo[0].Clear?
    ensures s.ctl.mode == Recovering && s.ctl.todo == [Clear] && forall r: Resource :: NoJournal(s.docs.At(r))
    ensures Get(s.docs.config.ann, RunOwner) == Text(s.ctl.active.value.id) ==> HeldBy(s.claim, s.ctl.active.value)
  {
    if s.ctl.mode == Recovering {
      NoFieldsInRecovery(s.ctl);
    }
  }

  lemma ClearedController(c: Controller, docs: Docs, after: Doc, fate: Fate)
    requires Working(c) && c.mode == Recovering && c.todo == [Clear] && ValidRunId(c.active.value.id)
    requires NoJournal(after) && forall r: Resource :: NoJournal(docs.At(r))
    ensures CtlInv(if fate == Acknowledged then Advance(c) else Raise(c), docs.With(Config, after), None)
  {
    forall r: Resource ensures NoJournal(docs.With(Config, after).At(r)) {
      assert NoJournal(docs.At(r));
    }
  }

  lemma FieldsKeepConfig(s: State, r: Resource, after: Doc)
    requires DocsInv(s) && SameForeignAnnotations(s.docs.At(r), after) && Stored(after)
    ensures r == Config ==> ConfigInv(after, s.claim)
    ensures Get(after.ann, ProbeOwner) == Get(s.docs.At(r).ann, ProbeOwner)
  {
    assert Get(after.ann, ProbeOwner) == Get(s.docs.At(r).ann, ProbeOwner);
    if r == Config {
      assert Stored(s.docs.At(Config));
      ConfigKept(s.docs.config, after, s.claim);
    }
  }

  lemma ConfigKept(config: Doc, after: Doc, claim: Option<Run>)
    requires ConfigInv(config, claim) && SameForeignAnnotations(config, after) && Stored(config) && Stored(after)
    ensures ConfigInv(after, claim)
  {
    forall name | name in CLAIM || name == ProbeOwner
      ensures Get(after.ann, name) == Get(config.ann, name) && (name in after.ann <==> name in config.ann)
    {
      assert Get(after.ann, name) == Get(config.ann, name);
    }
  }

  lemma NoFieldsInRecovery(c: Controller)
    requires c.active.Some? && c.todo != [] && Suffix(c.todo, RecoveryPlan(c.active.value))
    ensures !c.todo[0].Fields? && !c.todo[0].Job? && !c.todo[0].Claim?
    ensures c.todo[0].Clear? ==> c.todo == [Clear]
  {
    var plan := RecoveryPlan(c.active.value);
    assert c.todo[0] == plan[|plan| - |c.todo|];
  }

  // ----- The controller's other steps -----

  lemma FinishLeave(s: State, fate: Fate)
    requires Inv(s) && Working(s.ctl) && s.ctl.read.Some?
    requires Decide(s.ctl.todo[0], s.ctl.read.value, s.ctl.active.value).Leave?
    ensures Inv(FinishStep(s, fate))
  {
    var op, read := s.ctl.todo[0], s.ctl.read.value;
    if op.Restore? {
      assert DocInv(s.docs.At(op.r), op.r, s.claim, s.snap.At(op.r), op.r in s.edited);
      assert s.claim.Some? ==> ValidRunId(s.claim.value.id);
      LeftAlone(s.docs.At(op.r), read, op.r, s.claim, s.ctl.active.value.id, s.snap.At(op.r), op.r in s.edited);
    }
    AdvanceInv(s.ctl, s.docs, s.claim);
  }

  /** A restore that finds nothing to do leaves nothing undone, however old its read is. */
  lemma LeftAlone(doc: Doc, read: Doc, r: Resource, claim: Option<Run>, id: string, before: Doc, edited: bool)
    requires DocInv(doc, r, claim, before, edited) && SameRunNames(read, doc) && RestoreFields(read, r, id).Leave?
    requires claim.Some? ==> claim.value.id != ""
    ensures NoJournal(doc)
  {
    assert Get(read.ann, FieldOwner) == Get(doc.ann, FieldOwner);
  }

  lemma FinishInv(s: State, fate: Fate)
    requires Inv(s) && Working(s.ctl) && s.ctl.read.Some?
    ensures Inv(FinishStep(s, fate))
  {
    var op, read := s.ctl.todo[0], s.ctl.read.value;
    var verdict := Decide(op, read, s.ctl.active.value);
    if verdict.Refuse? {
      RaiseStepInv(s);
    } else if verdict.Leave? {
      FinishLeave(s, fate);
    } else if !Lands(s, fate) {
      DecidedVersion(op, read, s.ctl.active.value);
      RaiseStepInv(s);
      assert s.docs.With(Target(op), s.docs.At(Target(op))) == s.docs;
    } else {
      match op
      case Claim(_) => FinishClaim(s, fate);
      case Fields(_, _) => FinishFields(s, fate);
      case Job(_) => FinishJob(s, fate);
      case Restore(_) => FinishRestore(s, fate);
      case Clear => FinishClear(s, fate);
    }
  }

  lemma DecidedVersion(op: Op, doc: Doc, run: Run)
    requires Decide(op, doc, run).Write?
    ensures Decide(op, doc, run).patch.version == doc.version
  {
  }

  /** Reading the claim back gives the run that made it. */
  lemma PersistedIsClaim(s: State)
    requires DocsInv(s)
    ensures s.claim.None? ==> PersistedRun(s.docs) == NoRun
    ensures s.claim.Some? ==> PersistedRun(s.docs).Found? && HeldBy(s.claim, PersistedRun(s.docs).run)
                              && ValidRunId(PersistedRun(s.docs).run.id)
  {
    var config := s.docs.config;
    if s.claim.None? {
      forall r: Resource ensures !Truthy(Get(s.docs.At(r).ann, FieldOwner)) {
        assert DocInv(s.docs.At(r), r, s.claim, s.snap.At(r), r in s.edited);
      }
    } else {
      var run := s.claim.value;
      ClaimReads(config, run);
      var items := TextItems(run.targets);
      assert seq(|items|, i requires 0 <= i < |items| => items[i].text) == run.targets;
    }
  }

  lemma ClaimReads(config: Doc, run: Run)
    requires ClaimedBy(config, run)
    ensures Get(config.ann, RunOwner) == Text(run.id)
    ensures Get(config.ann, RunTargets) == Encoded(Array(TextItems(run.targets)))
    ensures Get(config.ann, RunBaseline) == Encoded(Object(run.baseline))
    ensures Get(config.ann, RunExpiry) == Encoded(Number(run.expires))
  {
    forall name | name in ClaimEntries(run) ensures Get(config.ann, name) == ClaimEntries(run)[name] {}
    assert ClaimEntries(run)[RunOwner] == Text(run.id);
    assert ClaimEntries(run)[RunTargets] == Encoded(Array(TextItems(run.targets)));
    assert ClaimEntries(run)[RunBaseline] == Encoded(Object(run.baseline));
    assert ClaimEntries(run)[RunExpiry] == Encoded(Number(run.expires));
  }

  lemma BeginInv(s: State, run: Run)
    requires Inv(s) && ValidRunId(run.id) && (s.claim.None? || HeldBy(s.claim, run))
    ensures Inv(s.(ctl := BeginRecovery(s.ctl.(active := Some(run)))))
  {
    JournalsReady(s);
    RecoveryBegins(run, s.docs, s.claim);
  }

  lemma StartInv(s: State, run: Run, plan: seq<Op>)
    requires Inv(s)
    ensures Inv(ControllerStep(s, Start(run, plan)))
  {
    PersistedIsClaim(s);
    assert ([Claim(run)] + plan)[1..] == plan;
  }

  lemma ReadInv(s: State)
    requires Inv(s)
    ensures Inv(ControllerStep(s, Read))
  {
  }

  lemma VerifyShape(s: State, readable: bool)
    ensures var s' := ControllerStep(s, Verify(readable));
            || s' == s
            || (s.ctl.active.Some? && s.ctl.mode == Verifying
                && (s' == s.(ctl := BeginRecovery(s.ctl)) || s' == s.(ctl := RESTARTED)))
  {
  }

  lemma VerifyInv(s: State, readable: bool)
    requires Inv(s)
    ensures Inv(ControllerStep(s, Verify(readable)))
  {
    VerifyShape(s, readable);
    if s.ctl.active.Some? && s.ctl.mode == Verifying {
      BeginInv(s, s.ctl.active.value);
      assert BeginRecovery(s.ctl.(active := Some(s.ctl.active.value))) == BeginRecovery(s.ctl);
    }
  }

  lemma RecoverInv(s: State)
    requires Inv(s)
    ensures Inv(ControllerStep(s, Recover))
  {
    if s.ctl.active.Some? && s.ctl.mode == Resting {
      BeginInv(s, s.ctl.active.value);
      assert BeginRecovery(s.ctl.(active := Some(s.ctl.active.value))) == BeginRecovery(s.ctl);
    }
  }

  lemma ReloadShape(s: State)
    ensures ControllerStep(s, Reload) == s
            || (PersistedRun(s.docs).Found?
                && ControllerStep(s, Reload)
                   == s.(ctl := BeginRecovery(s.ctl.(active := Some(PersistedRun(s.docs).run)))))
  {
  }

  lemma ReloadInv(s: State)
    requires Inv(s)
    ensures Inv(ControllerStep(s, Reload))
  {
    ReloadShape(s);
    if ControllerStep(s, Reload) != s {
      PersistedIsClaim(s);
      BeginInv(s, PersistedRun(s.docs).run);
    }
  }

  lemma EndInv(s: State)
    requires Inv(s)
    ensures Inv(ControllerStep(s, End)) && Inv(ControllerStep(s, Crash))
  {
  }

  lemma ControllerStepInv(s: State, step: Step)
    requires Inv(s)
    ensures Inv(ControllerStep(s, step))
  {
    match step
    case Start(run, plan) => StartInv(s, run, plan);
    case Read => ReadInv(s);
    case Finish(fate) => if Working(s.ctl) && s.ctl.read.Some? { FinishInv(s, fate); }
    case Fail => if Working(s.ctl) { RaiseStepInv(s); }
    case Verify(readable) => VerifyInv(s, readable);
    case Recover => RecoverInv(s);
    case Reload => ReloadInv(s);
    case End => EndInv(s);
    case Crash => EndInv(s);
    case _ =>
  }

  // ----- Runners and outsiders -----

  /** A write by anyone else keeps the controller's names, so the controller does not notice. */
  lemma ForeignWrite(s: State, r: Resource, ann: map<Name, Json>, fields: map<Name, Json>)
    requires Inv(s) && forall name | RunName(name) ::
            (name in ann <==> name in s.docs.At(r).ann) && Get(ann, name) == Get(s.docs.At(r).ann, name)
    ensures var docs' := s.docs.With(r, Commit(s.docs.At(r), ann, fields));
            CtlInv(s.ctl, docs', s.claim) && forall r': Resource :: ReadOf(s.docs.At(r'), docs'.At(r'))
  {
    var docs' := s.docs.With(r, Commit(s.docs.At(r), ann, fields));
    forall r': Resource ensures ReadOf(s.docs.At(r'), docs'.At(r')) && SameRunNames(s.docs.At(r'), docs'.At(r')) {}
    ControllerUndisturbed(s.ctl, s.docs, docs', s.claim);
  }

  /** With no claim in force, a write that keeps the controller's names keeps the documents in order. */
  lemma UnclaimedWrite(doc: Doc, r: Resource, before: Doc, edited: bool, ann: map<Name, Json>, fields: map<Name, Json>)
    requires DocInv(doc, r, None, before, edited) && NullFreeMembers(ann) && Flat(ann) && NullFreeMembers(fields)
    requires forall name | RunName(name) :: name in ann <==> name in doc.ann
    ensures DocInv(Commit(doc, ann, fields), r, None, before, edited)
    ensures r == Config && ConfigInv(doc, None) && Get(ann, ProbeOwner) != Text("")
            ==> ConfigInv(Commit(doc, ann, fields), None)
  {
    var after := Commit(doc, ann, fields);
    forall name | JournalName(name) ensures name !in after.ann { assert RunName(name); }
    if r == Config && Unclaimed(doc) {
      forall name | name in CLAIM ensures name !in after.ann { assert RunName(name); }
    }
  }

  /** A runner may write only while no run claims the Lab. */
  lemma ProbeMeansUnclaimed(s: State)
    requires DocsInv(s) && (ProbeOwner in s.docs.config.ann || ProbeOwner in s.docs.monitor.ann)
    ensures s.claim.None?
  {
    assert Stored(s.docs.At(Monitor));
    assert ProbeOwner in s.docs.monitor.ann ==> s.docs.monitor.ann[ProbeOwner] != Null;
  }

  /** A runner's own write to the monitor cannot be mistaken for another runner's mark. */
  lemma RunnersSeeMonitorWrite(docs: Docs, runners: map<string, Runner>, o: string, after: Doc, phase: Phase)
    requires RunnersInv(docs, runners) && o in runners && ReadOf(docs.monitor, after)
    requires Get(after.ann, ProbeOwner) == Null || Get(after.ann, ProbeOwner) == Text(o)
    requires phase.Halted? || (phase.Undone? && Get(after.ann, ProbeOwner) == Null)
    ensures RunnersInv(docs.With(Monitor, after), runners[o := runners[o].(phase := phase)])
  {
    var docs', runners' := docs.With(Monitor, after), runners[o := runners[o].(phase := phase)];
    forall o' | o' in runners' ensures RunnerOk(docs', o', runners'[o']) {
      assert RunnerOk(docs, o', runners[o']);
    }
  }

  /** Nor can its write to the ConfigMap take the lock from a holder. */
  lemma RunnersSeeConfigWrite(docs: Docs, runners: map<string, Runner>, o: string, after: Doc, phase: Phase)
    requires RunnersInv(docs, runners) && o in runners && ReadOf(docs.config, after)
    requires Get(docs.config.ann, ProbeOwner) == Null || Get(docs.config.ann, ProbeOwner) == Text(o)
    requires phase.Halted? || (phase.Holding? && Get(after.ann, ProbeOwner) == Text(o))
    ensures RunnersInv(docs.With(Config, after), runners[o := runners[o].(phase := phase)])
  {
    var docs', runners' := docs.With(Config, after), runners[o := runners[o].(phase := phase)];
    forall o' | o' in runners' ensures RunnerOk(docs', o', runners'[o']) {
      assert RunnerOk(docs, o', runners[o']);
    }
  }

  function WroteConfig(s: State, o: string, ann: map<Name, Json>, phase: Phase): State
    requires o in s.runners
  {
    SetPhase(s.(docs := s.docs.With(Config, Commit(s.docs.config, ann, s.docs.config.fields))), o, phase)
  }

  function WroteMonitor(s: State, o: string, ann: map<Name, Json>, fields: map<Name, Json>, phase: Phase): State
    requires o in s.runners
  {
    SetPhase(s.(docs := s.docs.With(Monitor, Commit(s.docs.monitor, ann, fields))), o, phase)
  }

  /** What the four writing steps come to when their JSON Patch lands. */
  lemma LockLands(s: State, o: string, fate: Fate)
    requires o in s.runners && s.runners[o].phase == Locking(s.docs.config) && fate != Dropped
    requires ClaimExternal(s.docs.config, o).Perform?
    ensures RunnerStep(s, LockFinish(o, fate))
         == WroteConfig(s, o, s.docs.config.ann[ProbeOwner := Text(o)], if fate == Acknowledged then Holding
             else Halted)
  {
    ClaimExternalEffect(s.docs.config, o, fate);
  }

  lemma UnlockLands(s: State, o: string, fate: Fate)
    requires o in s.runners && s.runners[o].phase == Unlocking(s.docs.config) && fate != Dropped
    requires ReleaseExternal(s.docs.config, o).Perform?
    ensures RunnerStep(s, UnlockFinish(o, fate)) == WroteConfig(s, o, s.docs.config.ann - {ProbeOwner}, Halted)
  {
    ReleaseExternalEffect(s.docs.config, o, fate);
  }

  lemma MarkLands(s: State, o: string, fate: Fate)
    requires o in s.runners && s.runners[o].phase.Holding? && s.runners[o].before == s.docs.monitor
    requires fate != Dropped && Markable(s.docs.monitor)
    ensures RunnerStep(s, Mark(o, fate))
         == WroteMonitor(s, o, s.docs.monitor.ann[ProbeOwner := Text(o)],
                         WithEndpointPath(s.docs.monitor.fields, Text(FAULT_PATH)), Halted)
  {
    MarkMonitorEffect(s.docs.monitor, o, fate);
  }

  lemma UndoLands(s: State, o: string, fate: Fate)
    requires o in s.runners && s.runners[o].phase == Undoing(s.docs.monitor) && fate != Dropped
    requires RestoreMonitor(s.docs.monitor, s.runners[o].before, o).Perform?
    ensures HasEndpointPath(s.docs.monitor.fields)
    ensures RunnerStep(s, UndoFinish(o, fate))
         == WroteMonitor(s, o, s.docs.monitor.ann - {ProbeOwner},
                         WithEndpointPath(s.docs.monitor.fields, EndpointPath(s.runners[o].before.fields)),
                         if fate == Acknowledged then Undone else Halted)
  {
    RestoreMonitorEffect(s.docs.monitor, s.runners[o].before, o, fate);
  }

  /** A runner takes or gives up the lock: only while nothing is claimed and no other mark stands. */
  lemma ConfigWriteInv(s: State, o: string, ann: map<Name, Json>, phase: Phase)
    requires Inv(s) && s.claim.None? && o in s.runners && ProbeOwner !in s.docs.monitor.ann
    requires Get(s.docs.config.ann, ProbeOwner) == Null || Get(s.docs.config.ann, ProbeOwner) == Text(o)
    requires NullFreeMembers(ann) && Flat(ann) && Get(ann, ProbeOwner) != Text("")
    requires forall name | name != ProbeOwner ::
            (name in ann <==> name in s.docs.config.ann) && Get(ann, name) == Get(s.docs.config.ann, name)
    requires phase.Halted? || (phase.Holding? && Get(ann, ProbeOwner) == Text(o))
    ensures Inv(WroteConfig(s, o, ann, phase))
  {
    var config := s.docs.config;
    assert DocInv(s.docs.At(Config), Config, None, s.snap.At(Config), Config in s.edited);
    UnclaimedWrite(config, Config, s.snap.config, Config in s.edited, ann, config.fields);
    LockedDocs(s, Commit(config, ann, config.fields));
    ForeignWrite(s, Config, ann, config.fields);
    RunnersSeeConfigWrite(s.docs, s.runners, o, Commit(config, ann, config.fields), phase);
  }

  lemma MonitorWriteInv(s: State, o: string, ann: map<Name, Json>, fields: map<Name, Json>, phase: Phase)
    requires Inv(s) && o in s.runners && Get(s.docs.config.ann, ProbeOwner) == Text(o)
    requires NullFreeMembers(ann) && Flat(ann) && NullFreeMembers(fields)
    requires forall name | name != ProbeOwner ::
            (name in ann <==> name in s.docs.monitor.ann) && Get(ann, name) == Get(s.docs.monitor.ann, name)
    requires Get(ann, ProbeOwner) == Null || Get(ann, ProbeOwner) == Text(o)
    requires phase.Halted? || (phase.Undone? && Get(ann, ProbeOwner) == Null)
    ensures Inv(WroteMonitor(s, o, ann, fields, phase))
  {
    ProbeMeansUnclaimed(s);
    MonitorWriteDocs(s, ann, fields);
    ForeignWrite(s, Monitor, ann, fields);
    RunnersSeeMonitorWrite(s.docs, s.runners, o, Commit(s.docs.monitor, ann, fields), phase);
  }

  /** Every runner has a name, and what it read is no later than what is there. */
  lemma RunnerReads(docs: Docs, runners: map<string, Runner>, o: string)
    requires RunnersInv(docs, runners) && o in runners
    ensures o != "" && ReadOf(runners[o].before, docs.monitor)
    ensures match runners[o].phase
            case Locking(read) => ReadOf(read, docs.config)
            case Undoing(read) => ReadOf(read, docs.monitor)
            case Unlocking(read) => ReadOf(read, docs.config)
            case _ => true
  {
    assert RunnerOk(docs, o, runners[o]);
  }

  lemma LockedAnnotations(ann: map<Name, Json>, o: string)
    requires NullFreeMembers(ann) && Flat(ann) && o != ""
    ensures var locked := ann[ProbeOwner := Text(o)];
            && NullFreeMembers(locked) && Flat(locked) && Get(locked, ProbeOwner) == Text(o) && Text(o) != Text("")
            && forall name | name != ProbeOwner ::
                 (name in locked <==> name in ann) && Get(locked, name) == Get(ann, name)
  {
  }

  lemma LockLandsInv(s: State, o: string, fate: Fate)
    requires Inv(s) && o in s.runners && s.runners[o].phase == Locking(s.docs.config)
    requires ClaimExternal(s.docs.config, o).Perform? && fate != Dropped
    ensures Inv(RunnerStep(s, LockFinish(o, fate)))
  {
    LockLands(s, o, fate);
    RunnerReads(s.docs, s.runners, o);
    UnownedConfig(s);
    LockedAnnotations(s.docs.config.ann, o);
    ConfigWriteInv(s, o, s.docs.config.ann[ProbeOwner := Text(o)], if fate == Acknowledged then Holding else Halted);
  }

  /** A ConfigMap without a run owner and without a lock: nothing is claimed, no monitor is marked. */
  lemma UnownedConfig(s: State)
    requires DocsInv(s) && !Truthy(Get(s.docs.config.ann, RunOwner)) && !Truthy(Get(s.docs.config.ann, ProbeOwner))
    ensures s.claim.None? && ProbeOwner !in s.docs.monitor.ann
    ensures Stored(s.docs.config) && Get(s.docs.config.ann, ProbeOwner) == Null
  {
    assert Stored(s.docs.At(Config)) && Stored(s.docs.At(Monitor));
    if s.claim.Some? {
      ClaimReads(s.docs.config, s.claim.value);
    }
  }

  lemma LockedDocs(s: State, after: Doc)
    requires DocsInv(s) && s.claim.None? && ProbeOwner !in s.docs.monitor.ann
    requires DocInv(after, Config, None, s.snap.config, Config in s.edited) && ConfigInv(after, None)
    ensures DocsInv(s.(docs := s.docs.With(Config, after)))
  {
    var s' := s.(docs := s.docs.With(Config, after));
    forall r: Resource ensures DocInv(s'.docs.At(r), r, s.claim, s.snap.At(r), r in s.edited) {
      assert DocInv(s.docs.At(r), r, s.claim, s.snap.At(r), r in s.edited);
    }
  }

  lemma MonitorWriteDocs(s: State, ann: map<Name, Json>, fields: map<Name, Json>)
    requires DocsInv(s) && s.claim.None?
    requires NullFreeMembers(ann) && Flat(ann) && NullFreeMembers(fields)
    requires forall name | RunName(name) :: name in ann <==> name in s.docs.monitor.ann
    requires ProbeOwner in ann ==> Get(s.docs.config.ann, ProbeOwner) == ann[ProbeOwner]
    ensures DocsInv(s.(docs := s.docs.With(Monitor, Commit(s.docs.monitor, ann, fields))))
  {
    assert DocInv(s.docs.At(Monitor), Monitor, None, s.snap.At(Monitor), Monitor in s.edited);
    UnclaimedWrite(s.docs.monitor, Monitor, s.snap.monitor, Monitor in s.edited, ann, fields);
    MonitorReplaced(s, Commit(s.docs.monitor, ann, fields));
  }

  lemma MonitorReplaced(s: State, after: Doc)
    requires DocsInv(s) && DocInv(after, Monitor, s.claim, s.snap.monitor, Monitor in s.edited)
    requires ProbeOwner in after.ann ==> Get(s.docs.config.ann, ProbeOwner) == after.ann[ProbeOwner]
    ensures DocsInv(s.(docs := s.docs.With(Monitor, after)))
  {
    var s' := s.(docs := s.docs.With(Monitor, after));
    forall r: Resource ensures DocInv(s'.docs.At(r), r, s.claim, s.snap.At(r), r in s.edited) {
      assert r != Monitor ==> DocInv(s.docs.At(r), r, s.claim, s.snap.At(r), r in s.edited);
    }
  }

  lemma PathKeepsNullFree(fields: map<Name, Json>, path: Json)
    requires NullFreeMembers(fields) && HasEndpointPath(fields)
    ensures NullFreeMembers(WithEndpointPath(fields, path))
  {
  }

  lemma MarkLandsInv(s: State, o: string, fate: Fate)
    requires Inv(s) && o in s.runners && s.runners[o].phase.Holding? && s.runners[o].before == s.docs.monitor
    requires fate != Dropped && Markable(s.docs.monitor)
    ensures Inv(RunnerStep(s, Mark(o, fate)))
  {
    MarkLands(s, o, fate);
    assert RunnerOk(s.docs, o, s.runners[o]) && Stored(s.docs.At(Monitor));
    PathKeepsNullFree(s.docs.monitor.fields, Text(FAULT_PATH));
    MonitorWriteInv(s, o, s.docs.monitor.ann[ProbeOwner := Text(o)],
        WithEndpointPath(s.docs.monitor.fields, Text(FAULT_PATH)), Halted);
  }

  lemma UndoLandsInv(s: State, o: string, fate: Fate)
    requires Inv(s) && o in s.runners && s.runners[o].phase == Undoing(s.docs.monitor)
    requires RestoreMonitor(s.docs.monitor, s.runners[o].before, o).Perform? && fate != Dropped
    ensures Inv(RunnerStep(s, UndoFinish(o, fate)))
  {
    UndoLands(s, o, fate);
    MarkedByHolder(s, o);
    UndoWriteInv(s, o, EndpointPath(s.runners[o].before.fields), if fate == Acknowledged then Undone else Halted);
  }

  lemma MarkedByHolder(s: State, o: string)
    requires Inv(s) && o in s.runners && RestoreMonitor(s.docs.monitor, s.runners[o].before, o).Perform?
    ensures HasEndpointPath(s.docs.monitor.fields) && Get(s.docs.config.ann, ProbeOwner) == Text(o)
  {
    assert RunnerOk(s.docs, o, s.runners[o]);
  }

  lemma UndoWriteInv(s: State, o: string, path: Json, phase: Phase)
    requires Inv(s) && o in s.runners && HasEndpointPath(s.docs.monitor.fields)
    requires Get(s.docs.config.ann, ProbeOwner) == Text(o) && (phase.Halted? || phase.Undone?)
    ensures Inv(WroteMonitor(s, o, s.docs.monitor.ann - {ProbeOwner}, WithEndpointPath(s.docs.monitor.fields, path),
            phase))
  {
    assert Stored(s.docs.At(Monitor));
    PathKeepsNullFree(s.docs.monitor.fields, path);
    MonitorWriteInv(s, o, s.docs.monitor.ann - {ProbeOwner}, WithEndpointPath(s.docs.monitor.fields, path), phase);
  }

  lemma UnlockersAreUnmarked(s: State, o: string)
    requires Inv(s) && o in s.runners && s.runners[o].phase == Unlocking(s.docs.config)
    requires ReleaseExternal(s.docs.config, o).Perform?
    ensures s.claim.None? && ProbeOwner !in s.docs.monitor.ann && Stored(s.docs.config)
    ensures Get(s.docs.config.ann, ProbeOwner) == Text(o)
  {
    assert RunnerOk(s.docs, o, s.runners[o]);
    ProbeMeansUnclaimed(s);
    assert Stored(s.docs.At(Config)) && Stored(s.docs.At(Monitor));
  }

  lemma UnlockLandsInv(s: State, o: string, fate: Fate)
    requires Inv(s) && o in s.runners && s.runners[o].phase == Unlocking(s.docs.config)
    requires ReleaseExternal(s.docs.config, o).Perform? && fate != Dropped
    ensures Inv(RunnerStep(s, UnlockFinish(o, fate)))
  {
    UnlockLands(s, o, fate);
    UnlockersAreUnmarked(s, o);
    ConfigWriteInv(s, o, s.docs.config.ann - {ProbeOwner}, Halted);
  }

  /** A runner step that writes nothing. */
  lemma PhaseInv(s: State, o: string, phase: Phase)
    requires Inv(s) && o in s.runners && RunnerOk(s.docs, o, s.runners[o].(phase := phase))
    ensures Inv(SetPhase(s, o, phase))
  {
  }

  lemma SameDocs(s: State, r: Resource)
    ensures s.docs.With(r, s.docs.At(r)) == s.docs
  {
  }

  lemma LockStepInv(s: State, o: string, fate: Fate)
    requires Inv(s)
    ensures Inv(RunnerStep(s, LockFinish(o, fate)))
  {
    if o in s.runners && s.runners[o].phase.Locking? {
      assert RunnerOk(s.docs, o, s.runners[o]);
      var read := s.runners[o].phase.read;
      if ClaimExternal(read, o).Perform? && read == s.docs.config && fate != Dropped {
        LockLandsInv(s, o, fate);
      } else {
        if ClaimExternal(read, o).Perform? && read != s.docs.config {
          OpsAreAtomic(s.docs.config, ClaimExternal(read, o).ops, fate);
        }
        SameDocs(s, Config);
        PhaseInv(s, o, Halted);
      }
    }
  }

  lemma MarkStepInv(s: State, o: string, fate: Fate)
    requires Inv(s)
    ensures Inv(RunnerStep(s, Mark(o, fate)))
  {
    if o in s.runners && s.runners[o].phase.Holding? {
      var before := s.runners[o].before;
      assert RunnerOk(s.docs, o, s.runners[o]);
      if before == s.docs.monitor && Markable(s.docs.monitor) && fate != Dropped {
        MarkLandsInv(s, o, fate);
      } else if before.version != s.docs.monitor.version {
        OpsAreAtomic(s.docs.monitor, MarkMonitor(before, o), fate);
        SameDocs(s, Monitor);
        PhaseInv(s, o, Halted);
      } else {
        MarkOfEqualVersion(s, o, fate);
      }
    }
  }

  /** The recorded monitor is an earlier read: equal versions mean the very same document. */
  lemma MarkOfEqualVersion(s: State, o: string, fate: Fate)
    requires Inv(s) && o in s.runners && s.runners[o].phase.Holding?
            && s.runners[o].before.version == s.docs.monitor.version
    requires !(s.runners[o].before == s.docs.monitor && Markable(s.docs.monitor) && fate != Dropped)
    ensures Inv(RunnerStep(s, Mark(o, fate)))
  {
    assert RunnerOk(s.docs, o, s.runners[o]);
    MarkMonitorEffect(s.docs.monitor, o, fate);
    SameDocs(s, Monitor);
    PhaseInv(s, o, Halted);
  }

  lemma UndoStepInv(s: State, o: string, fate: Fate)
    requires Inv(s)
    ensures Inv(RunnerStep(s, UndoFinish(o, fate)))
  {
    if o in s.runners && s.runners[o].phase.Undoing? {
      assert RunnerOk(s.docs, o, s.runners[o]);
      var read := s.runners[o].phase.read;
      var verdict := RestoreMonitor(read, s.runners[o].before, o);
      if verdict.Perform? && read == s.docs.monitor && fate != Dropped {
        UndoLandsInv(s, o, fate);
      } else if verdict.Skip? {
        PhaseInv(s, o, Undone);
      } else {
        if verdict.Perform? && read != s.docs.monitor {
          OpsAreAtomic(s.docs.monitor, verdict.ops, fate);
        }
        SameDocs(s, Monitor);
        PhaseInv(s, o, Halted);
      }
    }
  }

  lemma UnlockStepInv(s: State, o: string, fate: Fate)
    requires Inv(s)
    ensures Inv(RunnerStep(s, UnlockFinish(o, fate)))
  {
    if o in s.runners && s.runners[o].phase.Unlocking? {
      assert RunnerOk(s.docs, o, s.runners[o]);
      var read := s.runners[o].phase.read;
      var verdict := ReleaseExternal(read, o);
      if verdict.Perform? && read == s.docs.config && fate != Dropped {
        UnlockLandsInv(s, o, fate);
      } else {
        if verdict.Perform? && read != s.docs.config {
          OpsAreAtomic(s.docs.config, verdict.ops, fate);
        }
        SameDocs(s, Config);
        PhaseInv(s, o, Halted);
      }
    }
  }

  lemma RunnerStepInv(s: State, step: Step)
    requires Inv(s)
    ensures Inv(RunnerStep(s, step))
  {
    match step
    case Observe(o) =>
    case Lock(o) => if o in s.runners && s.runners[o].phase.Observed? {
        assert RunnerOk(s.docs, o, s.runners[o]);
        PhaseInv(s, o, Locking(s.docs.config));
      }
    case LockFinish(o, fate) => LockStepInv(s, o, fate);
    case Mark(o, fate) => MarkStepInv(s, o, fate);
    case Undo(o) => if o in s.runners && (s.runners[o].phase.Holding? || s.runners[o].phase.Halted?) {
        assert RunnerOk(s.docs, o, s.runners[o]);
        PhaseInv(s, o, Undoing(s.docs.monitor));
      }
    case UndoFinish(o, fate) => UndoStepInv(s, o, fate);
    case Unlock(o) => if o in s.runners && s.runners[o].phase.Undone? {
        assert RunnerOk(s.docs, o, s.runners[o]);
        PhaseInv(s, o, Unlocking(s.docs.config));
      }
    case UnlockFinish(o, fate) => UnlockStepInv(s, o, fate);
    case Halt(o) => if o in s.runners {
        assert RunnerOk(s.docs, o, s.runners[o]);
        PhaseInv(s, o, Halted);
      }
    case _ =>
  }

  // ----- Outsiders -----

  lemma EditedDoc(doc: Doc, r: Resource, claim: Option<Run>, before: Doc, edited: bool, ann: map<Name, Json>,
          fields: map<Name, Json>)
    requires DocInv(doc, r, claim, before, edited) && EditAllowed(doc, ann, fields)
    ensures DocInv(Commit(doc, ann, fields), r, claim, before, true)
    ensures forall name | LabName(name) :: name in ann <==> name in doc.ann
  {
    forall name | LabName(name) ensures (name in ann <==> name in doc.ann) && Get(ann, name) == Get(doc.ann, name) {
      assert Get(ann, name) == Get(doc.ann, name);
      assert name in doc.ann ==> doc.ann[name] != Null;
      assert name in ann ==> ann[name] != Null;
    }
    assert Get(ann, FieldOwner) == Get(doc.ann, FieldOwner);
    assert Get(ann, FieldBaseline) == Get(doc.ann, FieldBaseline);
    assert Get(ann, FieldApplied) == Get(doc.ann, FieldApplied);
  }

  lemma EditedConfig(config: Doc, claim: Option<Run>, ann: map<Name, Json>, fields: map<Name, Json>)
    requires ConfigInv(config, claim) && EditAllowed(config, ann, fields)
    requires forall name | LabName(name) :: name in ann <==> name in config.ann
    ensures ConfigInv(Commit(config, ann, fields), claim)
  {
    assert Get(ann, ProbeOwner) == Get(config.ann, ProbeOwner) && Get(ann, RunJobId) == Get(config.ann, RunJobId);
    if claim.Some? {
      forall name | name in ClaimEntries(claim.value) ensures Get(ann, name) == ClaimEntries(claim.value)[name] {
        assert LabName(name) && Get(config.ann, name) == ClaimEntries(claim.value)[name];
      }
    }
  }

  lemma EditInv(s: State, r: Resource, ann: map<Name, Json>, fields: map<Name, Json>)
    requires Inv(s) && EditAllowed(s.docs.At(r), ann, fields)
    ensures Inv(Next(s, Edit(r, ann, fields)))
  {
    var doc := s.docs.At(r);
    var after := Commit(doc, ann, fields);
    assert DocInv(doc, r, s.claim, s.snap.At(r), r in s.edited);
    EditedDoc(doc, r, s.claim, s.snap.At(r), r in s.edited, ann, fields);
    if r == Config {
      EditedConfig(doc, s.claim, ann, fields);
    }
    assert Get(after.ann, ProbeOwner) == Get(doc.ann, ProbeOwner);
    EditedMore(s, r);
    DocsInvWith(s.(edited := s.edited + {r}), r, after);
    ForeignWrite(s, r, ann, fields);
    RunnersSeeControllerWrite(s.docs, r, after, s.runners);
  }

  /** Calling a document edited only weakens what is claimed of it. */
  lemma EditedMore(s: State, r: Resource)
    requires DocsInv(s)
    ensures DocsInv(s.(edited := s.edited + {r}))
  {
    forall r': Resource ensures DocInv(s.docs.At(r'), r', s.claim, s.snap.At(r'), r' in s.edited + {r}) {
      assert DocInv(s.docs.At(r'), r', s.claim, s.snap.At(r'), r' in s.edited);
    }
  }

  // ----- Every step, every run -----

  lemma NextInv(s: State, step: Step)
    requires Inv(s)
    ensures Inv(Next(s, step))
  {
    if step.Edit? {
      if EditAllowed(s.docs.At(step.r), step.ann, step.fields) {
        EditInv(s, step.r, step.ann, step.fields);
      }
    } else {
      RunnerStepInv(s, step);
      ControllerStepInv(s, step);
    }
  }

  lemma {:induction false} ExecInv(s: State, steps: seq<Step>)
    requires Inv(s)
    ensures Inv(Exec(s, steps))
    decreases |steps|
  {
    if steps != [] {
      NextInv(s, steps[0]);
      ExecInv(Next(s, steps[0]), steps[1..]);
    }
  }
}
