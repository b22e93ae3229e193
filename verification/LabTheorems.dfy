/** What the Lab protocol guarantees in every run. */
module LabTheorems {
  import opened Json
  import opened VersionedStore
  import opened FieldJournal
  import opened RunClaim
  import opened LabProtocol
  import opened LabInvariant
  import opened LabSteps
  import opened Wrappers

  ghost predicate Reachable(s: State) {
    exists init: State, steps: seq<Step> :: Init(init) && s == Exec(init, steps)
  }

  lemma ReachableInv(s: State)
    requires Reachable(s)
    ensures Inv(s)
  {
    var init: State, steps: seq<Step> :| Init(init) && s == Exec(init, steps);
    InitInv(init);
    ExecInv(init, steps);
  }

  predicate RunOwned(s: State) {
    Truthy(Get(s.docs.config.ann, RunOwner))
  }

  predicate ProbeOwned(s: State) {
    Truthy(Get(s.docs.config.ann, ProbeOwner))
  }

  /** The claim in the history is the claim on the ConfigMap. */
  lemma ClaimIsOnConfig(s: State)
    requires Inv(s)
    ensures RunOwned(s) <==> s.claim.Some?
    ensures s.claim.Some? ==> Get(s.docs.config.ann, RunOwner) == Text(s.claim.value.id) && !ProbeOwned(s)
    ensures s.claim.None? ==> Get(s.docs.config.ann, RunOwner) == Null
  {
    if s.claim.Some? {
      ClaimReads(s.docs.config, s.claim.value);
    }
  }

  /** In every interleaving the ConfigMap never carries both a controller run and a screenshot lock. */
  lemma MutualExclusion(s: State)
    requires Reachable(s)
    ensures !(RunOwned(s) && ProbeOwned(s))
  {
    ReachableInv(s);
    ClaimIsOnConfig(s);
  }

  // ----- Who writes what -----

  /** While nobody's run claims the Lab, the controller's only possible write to the ConfigMap is its claim. */
  lemma UnclaimedControllerWrites(s: State, fate: Fate)
    requires Inv(s) && s.claim.None? && Working(s.ctl) && s.ctl.read.Some? && !s.ctl.todo[0].Claim?
    ensures FinishStep(s, fate).docs == s.docs
  {
    var op, run := s.ctl.todo[0], s.ctl.active.value;
    var r := Target(op);
    var current := s.docs.At(r);
    assert DocInv(current, r, s.claim, s.snap.At(r), r in s.edited);
    SameDocs(s, r);
    if s.ctl.mode == Recovering {
      NoFieldsInRecovery(s.ctl);
    }
    assert Get(s.ctl.read.value.ann, RunOwner) == Get(current.ann, RunOwner);
    assert Get(s.ctl.read.value.ann, FieldOwner) == Get(current.ann, FieldOwner);
    assert r == Config ==> Get(current.ann, RunOwner) == Null;
    assert Get(current.ann, FieldOwner) == Null;
  }

  ghost predicate ClaimMoves(s: State, s': State) {
    && (s.claim.Some? ==> s'.claim.None? || (s'.claim == s.claim && s'.snap == s.snap && s'.edited == s.edited))
    && (s.claim.None? && s'.claim.Some? ==> !ProbeOwned(s) && s'.snap == s.docs && s'.edited == {})
    && (s.claim.None? && s'.claim.None? ==> s'.docs == s.docs)
  }

  lemma LandedClaims(s: State, fate: Fate)
    requires Inv(s) && Lands(s, fate)
    ensures ClaimMoves(s, FinishStep(s, fate))
  {
    if s.ctl.mode == Recovering {
      NoFieldsInRecovery(s.ctl);
    }
    FinishLanded(s, fate);
    if s.claim.None? && !s.ctl.todo[0].Claim? {
      UnclaimedControllerWrites(s, fate);
    }
  }

  lemma UnlandedKeeps(s: State, fate: Fate)
    requires Inv(s) && Working(s.ctl) && s.ctl.read.Some? && !Lands(s, fate)
    ensures FinishStep(s, fate) == s.(ctl := FinishStep(s, fate).ctl)
  {
    var op := s.ctl.todo[0];
    SameDocs(s, Target(op));
    if Decide(op, s.ctl.read.value, s.ctl.active.value).Write? {
      DecidedVersion(op, s.ctl.read.value, s.ctl.active.value);
    }
  }

  /** What one controller step may do to the claim. */
  lemma ControllerClaims(s: State, step: Step)
    requires Inv(s)
    ensures ClaimMoves(s, ControllerStep(s, step))
  {
    if step.Finish? && Working(s.ctl) && s.ctl.read.Some? {
      if Lands(s, step.fate) {
        LandedClaims(s, step.fate);
      } else {
        UnlandedKeeps(s, step.fate);
      }
    } else {
      OthersOnlyRead(s, step);
    }
  }

  /** Every other step of the controller writes nothing. */
  lemma OthersOnlyRead(s: State, step: Step)
    requires !(step.Finish? && Working(s.ctl) && s.ctl.read.Some?)
    ensures ControllerStep(s, step) == s.(ctl := ControllerStep(s, step).ctl)
  {
  }

  /** What one runner step may do. */
  lemma RunnerWrites(s: State, step: Step)
    requires Inv(s)
    ensures var s' := RunnerStep(s, step);
            && s'.claim == s.claim && s'.snap == s.snap && s'.edited == s.edited && s'.ctl == s.ctl
            && (s.claim.Some? ==> s'.docs == s.docs)
            && (ProbeOwned(s) && ProbeOwned(s')
                ==> Get(s'.docs.config.ann, ProbeOwner) == Get(s.docs.config.ann, ProbeOwner))
  {
    RunnersWriteDocsOnly(s, step);
    match step
    case LockFinish(o, fate) => LockWrites(s, o, fate);
    case Mark(o, fate) => MarkWrites(s, o, fate);
    case UndoFinish(o, fate) => UndoWrites(s, o, fate);
    case UnlockFinish(o, fate) => UnlockWrites(s, o, fate);
    case _ =>
  }

  lemma RunnersWriteDocsOnly(s: State, step: Step)
    ensures var s' := RunnerStep(s, step);
            && s'.claim == s.claim && s'.snap == s.snap && s'.edited == s.edited && s'.ctl == s.ctl
            && (step.LockFinish? || step.Mark? || step.UndoFinish? || step.UnlockFinish? || s'.docs == s.docs)
  {
  }

  lemma LockWrites(s: State, o: string, fate: Fate)
    requires Inv(s)
    ensures var s' := RunnerStep(s, LockFinish(o, fate));
            s'.docs == s.docs || (!RunOwned(s) && !ProbeOwned(s) && s.claim.None?)
  {
    SameDocs(s, Config);
    if o in s.runners && s.runners[o].phase.Locking? {
      assert RunnerOk(s.docs, o, s.runners[o]);
      var read := s.runners[o].phase.read;
      if ClaimExternal(read, o).Perform? {
        if read != s.docs.config {
          OpsAreAtomic(s.docs.config, ClaimExternal(read, o).ops, fate);
        } else {
          ClaimIsOnConfig(s);
        }
      }
    }
  }

  lemma MarkWrites(s: State, o: string, fate: Fate)
    requires Inv(s)
    ensures var s' := RunnerStep(s, Mark(o, fate));
            s'.docs == s.docs || (s'.docs.config == s.docs.config && s.claim.None?)
  {
    SameDocs(s, Monitor);
    if o in s.runners && s.runners[o].phase.Holding? {
      assert RunnerOk(s.docs, o, s.runners[o]);
    }
  }

  lemma UndoWrites(s: State, o: string, fate: Fate)
    requires Inv(s)
    ensures var s' := RunnerStep(s, UndoFinish(o, fate));
            s'.docs == s.docs || (s'.docs.config == s.docs.config && s.claim.None?)
  {
    SameDocs(s, Monitor);
    if o in s.runners && s.runners[o].phase.Undoing? {
      assert RunnerOk(s.docs, o, s.runners[o]);
      var read := s.runners[o].phase.read;
      var verdict := RestoreMonitor(read, s.runners[o].before, o);
      if verdict.Perform? {
        if read != s.docs.monitor {
          OpsAreAtomic(s.docs.monitor, verdict.ops, fate);
        } else {
          MarkedByHolder(s, o);
        }
      }
    }
  }

  lemma UnlockWrites(s: State, o: string, fate: Fate)
    requires Inv(s)
    ensures var s' := RunnerStep(s, UnlockFinish(o, fate));
            s'.docs == s.docs || (s.claim.None? && !ProbeOwned(s'))
  {
    SameDocs(s, Config);
    if o in s.runners && s.runners[o].phase.Unlocking? {
      assert RunnerOk(s.docs, o, s.runners[o]);
      var read := s.runners[o].phase.read;
      var verdict := ReleaseExternal(read, o);
      if verdict.Perform? {
        if read != s.docs.config {
          OpsAreAtomic(s.docs.config, verdict.ops, fate);
        } else {
          ClaimIsOnConfig(s);
          ReleaseExternalEffect(s.docs.config, o, fate);
        }
      }
    }
  }

  /** No step replaces an owner by a different one, and a claim or lock is only ever taken when the
      ConfigMap shows neither. */
  lemma OwnersAreNotReplaced(s: State, step: Step)
    requires Reachable(s)
    ensures var s' := Next(s, step);
            && (RunOwned(s) && RunOwned(s') ==> Get(s'.docs.config.ann, RunOwner) == Get(s.docs.config.ann, RunOwner))
            && (ProbeOwned(s) && ProbeOwned(s')
                ==> Get(s'.docs.config.ann, ProbeOwner) == Get(s.docs.config.ann, ProbeOwner))
            && (!RunOwned(s) && RunOwned(s') ==> !ProbeOwned(s) && !ProbeOwned(s'))
            && (!ProbeOwned(s) && ProbeOwned(s') ==> !RunOwned(s) && !RunOwned(s'))
  {
    ReachableInv(s);
    NextInv(s, step);
    ClaimIsOnConfig(s);
    ClaimIsOnConfig(Next(s, step));
    OwnersStep(s, step);
    OwnersFollowTheClaim(s, Next(s, step));
  }

  ghost predicate ClaimShown(s: State) {
    && (RunOwned(s) <==> s.claim.Some?)
    && (s.claim.Some? ==> Get(s.docs.config.ann, RunOwner) == Text(s.claim.value.id) && !ProbeOwned(s))
  }

  lemma OwnersFollowTheClaim(s: State, s': State)
    requires ClaimShown(s) && ClaimShown(s')
    requires s.claim.Some? ==> s'.claim.None? || s'.claim == s.claim
    requires s.claim.None? && s'.claim.Some? ==> !ProbeOwned(s)
    requires s.claim.Some? && s'.claim.None? ==> ProbeOwned(s') == ProbeOwned(s)
    requires s.claim.None? && s'.claim.None? && ProbeOwned(s) && ProbeOwned(s') ==>
               Get(s'.docs.config.ann, ProbeOwner) == Get(s.docs.config.ann, ProbeOwner)
    ensures RunOwned(s) && RunOwned(s') ==> Get(s'.docs.config.ann, RunOwner) == Get(s.docs.config.ann, RunOwner)
    ensures ProbeOwned(s) && ProbeOwned(s')
            ==> Get(s'.docs.config.ann, ProbeOwner) == Get(s.docs.config.ann, ProbeOwner)
    ensures !RunOwned(s) && RunOwned(s') ==> !ProbeOwned(s) && !ProbeOwned(s')
    ensures !ProbeOwned(s) && ProbeOwned(s') ==> !RunOwned(s) && !RunOwned(s')
  {
  }

  /** One step: an edit leaves both owners, a runner leaves the claim, the controller moves only the claim. */
  lemma OwnersStep(s: State, step: Step)
    requires Inv(s)
    ensures var s' := Next(s, step);
            && (s.claim.Some? ==> s'.claim.None? || s'.claim == s.claim)
            && (s.claim.None? && s'.claim.Some? ==> !ProbeOwned(s))
            && (s.claim.Some? && s'.claim.None? ==> ProbeOwned(s') == ProbeOwned(s))
            && (s.claim.None? && s'.claim.None? && ProbeOwned(s) && ProbeOwned(s') ==>
                  Get(s'.docs.config.ann, ProbeOwner) == Get(s.docs.config.ann, ProbeOwner))
  {
    if s.claim.Some? && Next(s, step).claim.None? {
      ClearStep(s, step);
    } else if step.Edit? {
      if EditAllowed(s.docs.At(step.r), step.ann, step.fields) {
        assert LabName(ProbeOwner) && Get(step.ann, ProbeOwner) == Get(s.docs.At(step.r).ann, ProbeOwner);
      }
    } else {
      RunnerWrites(s, step);
      ControllerClaims(s, step);
    }
  }

  /** A field journal always names the run on the ConfigMap, and no journal is ever orphaned: reading the
      claim back never fails. */
  lemma JournalsNameTheClaim(s: State)
    requires Reachable(s)
    ensures forall r: Resource | FieldOwner in s.docs.At(r).ann ::
              RunOwned(s) && s.docs.At(r).ann[FieldOwner] == Get(s.docs.config.ann, RunOwner)
    ensures PersistedRun(s.docs) != Invalid
  {
    ReachableInv(s);
    ClaimIsOnConfig(s);
    PersistedIsClaim(s);
    forall r: Resource | FieldOwner in s.docs.At(r).ann
      ensures RunOwned(s) && s.docs.At(r).ann[FieldOwner] == Get(s.docs.config.ann, RunOwner)
    {
      assert DocInv(s.docs.At(r), r, s.claim, s.snap.At(r), r in s.edited);
    }
  }

  /** The names the start-up check reads one by one are written by no one but the controller, so checking
      them at different moments is checking them at once. */
  lemma OnlyTheControllerWritesRunNames(s: State, step: Step, r: Resource)
    requires Reachable(s) && ControllerStep(s, step) == s
    ensures SameRunNames(s.docs.At(r), Next(s, step).docs.At(r))
  {
    ReachableInv(s);
    if step.Edit? {
      EditStepKeepsRunNames(s, step, r);
    } else {
      RunnerKeepsRunNames(s, step, r);
    }
  }

  lemma EditStepKeepsRunNames(s: State, step: Step, r: Resource)
    requires Inv(s) && step.Edit?
    ensures SameRunNames(s.docs.At(r), Next(s, step).docs.At(r))
  {
    if EditAllowed(s.docs.At(step.r), step.ann, step.fields) {
      EditKeepsRunNames(s, step.r, step.ann, step.fields);
      SameRunNamesThere(s.docs, step.r, Commit(s.docs.At(step.r), step.ann, step.fields));
      assert Next(s, step).docs == s.docs.With(step.r, Commit(s.docs.At(step.r), step.ann, step.fields));
    }
  }

  lemma EditKeepsRunNames(s: State, r: Resource, ann: map<Name, Json>, fields: map<Name, Json>)
    requires Inv(s) && EditAllowed(s.docs.At(r), ann, fields)
    ensures SameRunNames(s.docs.At(r), Commit(s.docs.At(r), ann, fields))
  {
    var doc := s.docs.At(r);
    assert DocInv(doc, r, s.claim, s.snap.At(r), r in s.edited);
    EditedDoc(doc, r, s.claim, s.snap.At(r), r in s.edited, ann, fields);
    forall name | RunName(name) ensures (name in doc.ann <==> name in ann) && Get(doc.ann, name) == Get(ann, name) {
      assert LabName(name);
    }
  }

  /** Moving the probe mark moves no other name. */
  lemma ProbeMarkOnly(doc: Doc, ann: map<Name, Json>, fields: map<Name, Json>, owner: string)
    requires ann == doc.ann[ProbeOwner := Text(owner)] || ann == doc.ann - {ProbeOwner}
    ensures SameRunNames(doc, Commit(doc, ann, fields))
  {
  }

  lemma LockKeepsRunNames(s: State, o: string, fate: Fate)
    requires RunnersInv(s.docs, s.runners) && o in s.runners && s.runners[o].phase.Locking?
    ensures SameRunNames(s.docs.config, RunnerStep(s, LockFinish(o, fate)).docs.config)
    ensures RunnerStep(s, LockFinish(o, fate)).docs
            == s.docs.With(Config, RunnerStep(s, LockFinish(o, fate)).docs.config)
  {
    RunnerReads(s.docs, s.runners, o);
    var config, read := s.docs.config, s.runners[o].phase.read;
    if ClaimExternal(read, o).Perform? {
      if read == config {
        ClaimExternalEffect(read, o, fate);
        ProbeMarkOnly(config, config.ann[ProbeOwner := Text(o)], config.fields, o);
      } else {
        OpsAreAtomic(config, ClaimExternal(read, o).ops, fate);
      }
    }
  }

  lemma MarkKeepsRunNames(s: State, o: string, fate: Fate)
    requires RunnersInv(s.docs, s.runners) && o in s.runners && s.runners[o].phase.Holding?
    ensures SameRunNames(s.docs.monitor, RunnerStep(s, Mark(o, fate)).docs.monitor)
    ensures RunnerStep(s, Mark(o, fate)).docs == s.docs.With(Monitor, RunnerStep(s, Mark(o, fate)).docs.monitor)
  {
    RunnerReads(s.docs, s.runners, o);
    var monitor, before := s.docs.monitor, s.runners[o].before;
    if before == monitor {
      MarkMonitorEffect(before, o, fate);
      if Markable(monitor) {
        var marked := monitor.ann[ProbeOwner := Text(o)];
        ProbeMarkOnly(monitor, marked, WithEndpointPath(monitor.fields, Text(FAULT_PATH)), o);
      }
    } else {
      OpsAreAtomic(monitor, MarkMonitor(before, o), fate);
    }
  }

  lemma UndoKeepsRunNames(s: State, o: string, fate: Fate)
    requires RunnersInv(s.docs, s.runners) && o in s.runners && s.runners[o].phase.Undoing?
    ensures SameRunNames(s.docs.monitor, RunnerStep(s, UndoFinish(o, fate)).docs.monitor)
    ensures RunnerStep(s, UndoFinish(o, fate)).docs
            == s.docs.With(Monitor, RunnerStep(s, UndoFinish(o, fate)).docs.monitor)
  {
    if s.runners[o].phase.read == s.docs.monitor && fate != Dropped
       && RestoreMonitor(s.docs.monitor, s.runners[o].before, o).Perform? {
      LandedUndoKeeps(s, o, fate);
    } else {
      UndoElsewhere(s, o, fate);
    }
  }

  /** An undo that is not decided, not sent or decided from an older read writes nothing. */
  lemma UndoElsewhere(s: State, o: string, fate: Fate)
    requires RunnersInv(s.docs, s.runners) && o in s.runners && s.runners[o].phase.Undoing?
    requires !(s.runners[o].phase.read == s.docs.monitor && fate != Dropped
               && RestoreMonitor(s.docs.monitor, s.runners[o].before, o).Perform?)
    ensures RunnerStep(s, UndoFinish(o, fate)).docs == s.docs
  {
    RunnerReads(s.docs, s.runners, o);
    SameDocs(s, Monitor);
    var monitor, read, before := s.docs.monitor, s.runners[o].phase.read, s.runners[o].before;
    if RestoreMonitor(read, before, o).Perform? && read != monitor {
      UndoIsVersioned(read, before, o);
      OpsAreAtomic(monitor, RestoreMonitor(read, before, o).ops, fate);
    }
  }

  lemma UndoIsVersioned(read: Doc, before: Doc, o: string)
    requires RestoreMonitor(read, before, o).Perform?
    ensures RestoreMonitor(read, before, o).ops != []
            && RestoreMonitor(read, before, o).ops[0] == TestVersion(read.version)
  {
  }

  lemma LandedUndoKeeps(s: State, o: string, fate: Fate)
    requires o in s.runners && s.runners[o].phase == Undoing(s.docs.monitor) && fate != Dropped
    requires RestoreMonitor(s.docs.monitor, s.runners[o].before, o).Perform?
    ensures SameRunNames(s.docs.monitor, RunnerStep(s, UndoFinish(o, fate)).docs.monitor)
    ensures RunnerStep(s, UndoFinish(o, fate)).docs
            == s.docs.With(Monitor, RunnerStep(s, UndoFinish(o, fate)).docs.monitor)
  {
    var monitor := s.docs.monitor;
    UndoLands(s, o, fate);
    ProbeMarkOnly(monitor, monitor.ann - {ProbeOwner},
        WithEndpointPath(monitor.fields, EndpointPath(s.runners[o].before.fields)), o);
  }

  lemma UnlockKeepsRunNames(s: State, o: string, fate: Fate)
    requires RunnersInv(s.docs, s.runners) && o in s.runners && s.runners[o].phase.Unlocking?
    ensures SameRunNames(s.docs.config, RunnerStep(s, UnlockFinish(o, fate)).docs.config)
    ensures RunnerStep(s, UnlockFinish(o, fate)).docs
            == s.docs.With(Config, RunnerStep(s, UnlockFinish(o, fate)).docs.config)
  {
    if s.runners[o].phase.read == s.docs.config && fate != Dropped && ReleaseExternal(s.docs.config, o).Perform? {
      UnlockLands(s, o, fate);
      ProbeMarkOnly(s.docs.config, s.docs.config.ann - {ProbeOwner}, s.docs.config.fields, o);
    } else {
      UnlockElsewhere(s, o, fate);
    }
  }

  /** An unlock that is not decided, not sent or decided from an older read writes nothing. */
  lemma UnlockElsewhere(s: State, o: string, fate: Fate)
    requires RunnersInv(s.docs, s.runners) && o in s.runners && s.runners[o].phase.Unlocking?
    requires !(s.runners[o].phase.read == s.docs.config && fate != Dropped
               && ReleaseExternal(s.docs.config, o).Perform?)
    ensures RunnerStep(s, UnlockFinish(o, fate)).docs == s.docs
  {
    RunnerReads(s.docs, s.runners, o);
    SameDocs(s, Config);
    var config, read := s.docs.config, s.runners[o].phase.read;
    if ReleaseExternal(read, o).Perform? && read != config {
      OpsAreAtomic(config, ReleaseExternal(read, o).ops, fate);
    }
  }

  lemma SameRunNamesThere(docs: Docs, r: Resource, after: Doc)
    requires SameRunNames(docs.At(r), after)
    ensures forall r': Resource :: SameRunNames(docs.At(r'), docs.With(r, after).At(r'))
  {
  }

  lemma ConfigStepKeeps(s: State, o: string, fate: Fate, lock: bool)
    requires RunnersInv(s.docs, s.runners)
    ensures var docs' := RunnerStep(s, if lock then LockFinish(o, fate) else UnlockFinish(o, fate)).docs;
            forall r: Resource :: SameRunNames(s.docs.At(r), docs'.At(r))
  {
    if lock && o in s.runners && s.runners[o].phase.Locking? {
      LockKeepsRunNames(s, o, fate);
      SameRunNamesThere(s.docs, Config, RunnerStep(s, LockFinish(o, fate)).docs.config);
    }
    if !lock && o in s.runners && s.runners[o].phase.Unlocking? {
      UnlockKeepsRunNames(s, o, fate);
      SameRunNamesThere(s.docs, Config, RunnerStep(s, UnlockFinish(o, fate)).docs.config);
    }
  }

  lemma MonitorStepKeeps(s: State, o: string, fate: Fate, mark: bool)
    requires RunnersInv(s.docs, s.runners)
    ensures var docs' := RunnerStep(s, if mark then Mark(o, fate) else UndoFinish(o, fate)).docs;
            forall r: Resource :: SameRunNames(s.docs.At(r), docs'.At(r))
  {
    if mark && o in s.runners && s.runners[o].phase.Holding? {
      MarkKeepsRunNames(s, o, fate);
      SameRunNamesThere(s.docs, Monitor, RunnerStep(s, Mark(o, fate)).docs.monitor);
    }
    if !mark && o in s.runners && s.runners[o].phase.Undoing? {
      UndoKeepsRunNames(s, o, fate);
      SameRunNamesThere(s.docs, Monitor, RunnerStep(s, UndoFinish(o, fate)).docs.monitor);
    }
  }

  lemma RunnerKeepsRunNames(s: State, step: Step, r: Resource)
    requires RunnersInv(s.docs, s.runners)
    ensures SameRunNames(s.docs.At(r), RunnerStep(s, step).docs.At(r))
  {
    match step
    case LockFinish(o, fate) => ConfigStepKeeps(s, o, fate, true);
    case UnlockFinish(o, fate) => ConfigStepKeeps(s, o, fate, false);
    case Mark(o, fate) => MonitorStepKeeps(s, o, fate, true);
    case UndoFinish(o, fate) => MonitorStepKeeps(s, o, fate, false);
    case _ => RunnersWriteDocsOnly(s, step);
  }

  /** Every field the controller changes, it changes under its own claim and with no screenshot lock present. */
  lemma FieldWritesAreOwned(s: State, step: Step, r: Resource)
    requires Reachable(s) && ControllerStep(s, step).docs.At(r).fields != s.docs.At(r).fields
    ensures s.ctl.active.Some? && Get(s.docs.config.ann, RunOwner) == Text(s.ctl.active.value.id) && !ProbeOwned(s)
  {
    ReachableInv(s);
    if !Lands(s, step.fate) {
      UnlandedKeeps(s, step.fate);
    }
    LandedFieldWrite(s, step.fate, r);
  }

  lemma LandedFieldWrite(s: State, fate: Fate, r: Resource)
    requires Inv(s) && Lands(s, fate) && FinishStep(s, fate).docs.At(r).fields != s.docs.At(r).fields
    ensures Get(s.docs.config.ann, RunOwner) == Text(s.ctl.active.value.id) && !ProbeOwned(s)
  {
    ClaimIsOnConfig(s);
    if s.claim.None? {
      if s.ctl.todo[0].Claim? {
        ClaimWritesNoField(s, fate);
      } else {
        UnclaimedControllerWrites(s, fate);
      }
    }
  }

  lemma ClaimWritesNoField(s: State, fate: Fate)
    requires Inv(s) && Lands(s, fate) && s.ctl.todo[0].Claim?
    ensures FinishStep(s, fate).docs.config.fields == s.docs.config.fields
    ensures FinishStep(s, fate).docs == s.docs.With(Config, FinishStep(s, fate).docs.config)
  {
    FinishLanded(s, fate);
    assert DocInv(s.docs.At(Config), Config, s.claim, s.snap.At(Config), Config in s.edited);
    ClaimKeepsFields(s.docs.config, s.ctl.todo[0].run);
  }

  lemma ClaimKeepsFields(config: Doc, run: Run)
    requires Stored(config) && ClaimRun(config, run).Write?
    ensures Carry(config, ClaimRun(config, run)).fields == config.fields
  {
    AnnotationPatchEffect(config, ClaimRun(config, run).patch, ClaimEntries(run));
  }

  /** While a run claims the Lab, runners cannot change any of its documents. */
  lemma ClaimedLabIsQuiet(s: State, step: Step)
    requires Reachable(s) && RunOwned(s)
    ensures RunnerStep(s, step).docs == s.docs
  {
    ReachableInv(s);
    ClaimIsOnConfig(s);
    RunnerWrites(s, step);
  }

  /** Back to what it was when the claim landed: the fields and every annotation that is not the Lab's. */
  ghost predicate RestoredTo(doc: Doc, before: Doc) {
    doc.fields == before.fields && forall name | !LabName(name) :: Get(doc.ann, name) == Get(before.ann, name)
  }

  /** The claim goes away only through the controller's clear, and then nothing is left to restore: no journal
      anywhere, and every document no outsider edited is back as it was when the claim landed. */
  lemma ClaimIsClearedLast(s: State, step: Step)
    requires Inv(s) && s.claim.Some? && Next(s, step).claim.None?
    ensures var s' := Next(s, step);
            && Unclaimed(s'.docs.config)
            && (forall r: Resource :: NoJournal(s'.docs.At(r)))
            && (forall r: Resource | r !in s.edited :: RestoredTo(s'.docs.At(r), s.snap.At(r)))
  {
    NextInv(s, step);
    ClearStep(s, step);
    var s' := Next(s, step);
    forall r: Resource ensures NoJournal(s'.docs.At(r)) {
      assert DocInv(s'.docs.At(r), r, s'.claim, s'.snap.At(r), r in s'.edited);
    }
    forall r: Resource | r !in s.edited ensures RestoredTo(s'.docs.At(r), s.snap.At(r)) {
      assert NoJournal(s.docs.At(r)) && DocInv(s.docs.At(r), r, s.claim, s.snap.At(r), r in s.edited);
      match r case Config => case Service => case Monitor =>
    }
  }

  lemma OnlyFinishClears(s: State, step: Step)
    requires Inv(s) && s.claim.Some? && Next(s, step).claim.None?
    ensures step.Finish? && Working(s.ctl) && s.ctl.read.Some? && Next(s, step) == FinishStep(s, step.fate)
  {
    if !step.Edit? {
      RunnerWrites(s, step);
    }
  }

  /** What the clear leaves alone, wherever it lands. */
  lemma ClearFrame(s: State)
    requires DocsInv(s) && s.claim.Some? && ClearRunClaim(s.docs.config, s.claim.value.id).Write?
    ensures var after := Carry(s.docs.config, ClearRunClaim(s.docs.config, s.claim.value.id));
            && after.fields == s.docs.config.fields
            && forall name | name !in CLAIM :: Get(after.ann, name) == Get(s.docs.config.ann, name)
  {
    assert DocInv(s.docs.At(Config), Config, s.claim, s.snap.At(Config), Config in s.edited);
    ClearLands(s.docs.config, s.claim.value);
  }

  /** The step that takes the claim away is a landed clear. */
  lemma ClearLanded(s: State, fate: Fate)
    requires Inv(s) && s.claim.Some? && Working(s.ctl) && s.ctl.read.Some? && FinishStep(s, fate).claim.None?
    ensures forall r: Resource :: NoJournal(s.docs.At(r))
    ensures ClearRunClaim(s.docs.config, s.claim.value.id).Write?
    ensures FinishStep(s, fate).docs
            == s.docs.With(Config, Carry(s.docs.config, ClearRunClaim(s.docs.config, s.claim.value.id)))
  {
    ClearingLands(s, fate);
    FinishLanded(s, fate);
    FinishClear(s, fate);
    NothingLeftToRestore(s);
  }

  lemma ClearingLands(s: State, fate: Fate)
    requires Inv(s) && s.claim.Some? && Working(s.ctl) && s.ctl.read.Some? && FinishStep(s, fate).claim.None?
    ensures Lands(s, fate) && s.ctl.todo[0].Clear?
  {
    if !Lands(s, fate) {
      UnlandedKeeps(s, fate);
    } else {
      FinishLanded(s, fate);
    }
  }

  lemma ClearStep(s: State, step: Step)
    requires Inv(s) && s.claim.Some? && Next(s, step).claim.None?
    ensures forall r: Resource :: NoJournal(s.docs.At(r))
    ensures var docs' := Next(s, step).docs;
            && docs'.service == s.docs.service && docs'.monitor == s.docs.monitor
            && docs'.config.fields == s.docs.config.fields
            && forall name | name !in CLAIM :: Get(docs'.config.ann, name) == Get(s.docs.config.ann, name)
  {
    OnlyFinishClears(s, step);
    ClearLanded(s, step.fate);
    ClearFrame(s);
  }
}
