/** The screenshot runner's promises over whole runs: its mark, its lock, and a restore from any point. */
module LabRunners {
  import opened Json
  import opened VersionedStore
  import opened FieldJournal
  import opened RunClaim
  import opened LabProtocol
  import opened LabInvariant
  import opened LabSteps
  import opened LabTheorems
  import opened Wrappers

  predicate Locked(docs: Docs, o: string) {
    Get(docs.config.ann, ProbeOwner) == Text(o)
  }

  // ----- The mark and the lock -----

  /** In every run a marked monitor names the holder of the lock, and no controller run claims the Lab. */
  lemma MarkNamesTheHolder(s: State)
    requires Reachable(s) && ProbeOwner in s.docs.monitor.ann
    ensures Get(s.docs.config.ann, ProbeOwner) == s.docs.monitor.ann[ProbeOwner] && !RunOwned(s)
  {
    ReachableInv(s);
    ProbeMeansUnclaimed(s);
    ClaimIsOnConfig(s);
  }

  /** An unlock that writes anything is the holder's, and finds the monitor unmarked. */
  lemma UnlockWritesOwn(s: State, o: string, fate: Fate)
    requires Inv(s) && RunnerStep(s, UnlockFinish(o, fate)).docs != s.docs
    ensures Locked(s.docs, o) && ProbeOwner !in s.docs.monitor.ann
    ensures var docs' := RunnerStep(s, UnlockFinish(o, fate)).docs;
            docs'.monitor == s.docs.monitor && docs'.service == s.docs.service && ProbeOwner !in docs'.config.ann
  {
    SameDocs(s, Config);
    RunnerReads(s.docs, s.runners, o);
    assert s.runners[o].phase.read == s.docs.config;
    UnlockersAreUnmarked(s, o);
    UnlockLands(s, o, fate);
  }

  /** In every run the lock goes away only by its holder's own unlock, and then the monitor carries no mark. */
  lemma LockGoesLast(s: State, step: Step, o: string)
    requires Reachable(s) && Locked(s.docs, o) && !Locked(Next(s, step).docs, o)
    ensures step.UnlockFinish? && step.o == o
    ensures ProbeOwner !in Next(s, step).docs.monitor.ann && ProbeOwner !in Next(s, step).docs.config.ann
  {
    ReachableInv(s);
    ProbeMeansUnclaimed(s);
    if !step.Edit? {
      RunnerWrites(s, step);
      ControllerClaims(s, step);
      LockWritten(s, step, o);
    }
  }

  lemma LockWritten(s: State, step: Step, o: string)
    requires Inv(s) && s.claim.None? && Locked(s.docs, o) && !step.Edit?
    requires ControllerStep(s, step).docs == s.docs && !Locked(Next(s, step).docs, o)
    ensures step.UnlockFinish? && step.o == o
    ensures ProbeOwner !in Next(s, step).docs.monitor.ann && ProbeOwner !in Next(s, step).docs.config.ann
  {
    assert ProbeOwned(s) by { assert Stored(s.docs.At(Config)); }
    match step
    case LockFinish(o', fate) => LockWrites(s, o', fate);
    case Mark(o', fate) => MarkWrites(s, o', fate);
    case UndoFinish(o', fate) => UndoWrites(s, o', fate);
    case UnlockFinish(o', fate) => UnlockWritesOwn(s, o', fate);
    case _ =>
  }

  // ----- Taking the lock and setting the mark -----

  lemma LockBegins(s: State, o: string)
    requires o in s.runners && s.runners[o].phase.Observed?
    ensures Next(s, Lock(o)) == SetPhase(s, o, Locking(s.docs.config))
  {
  }

  lemma LockEnds(s: State, o: string)
    requires o in s.runners && s.runners[o].phase == Locking(s.docs.config)
    ensures var t := Next(s, LockFinish(o, Acknowledged));
            if ClaimExternal(s.docs.config, o).Perform?
            then t == WroteConfig(s, o, s.docs.config.ann[ProbeOwner := Text(o)], Holding)
            else t == SetPhase(s, o, Halted)
  {
    if ClaimExternal(s.docs.config, o).Perform? {
      LockLands(s, o, Acknowledged);
    }
  }

  /** A delivered attempt on the lock succeeds if and only if neither a controller run nor a screenshot runner owns
      the Lab; it adds the owner and nothing else, and otherwise writes nothing and ends the program. */
  lemma LockSucceedsExactlyWhen(s: State, o: string)
    requires Reachable(s) && o in s.runners && s.runners[o].phase.Observed?
    ensures var t := Next(Next(s, Lock(o)), LockFinish(o, Acknowledged));
            && o in t.runners
            && (t.runners[o].phase.Holding? <==> !RunOwned(s) && !ProbeOwned(s))
            && (t.runners[o].phase.Holding? ==>
                  && Locked(t.docs, o) && t.docs == s.docs.With(Config, t.docs.config)
                  && t.docs.config.ann == s.docs.config.ann[ProbeOwner := Text(o)]
                  && t.docs.config.fields == s.docs.config.fields)
            && (!t.runners[o].phase.Holding? ==> t.docs == s.docs && t.runners[o].phase.Halted?)
  {
    ReachableInv(s);
    LockBegins(s, o);
    LockEnds(SetPhase(s, o, Locking(s.docs.config)), o);
    LockVerdict(s, o);
  }

  /** And exactly at an unmarked monitor at `/metrics` does a new runner get past its preflight. */
  lemma PreflightPassesExactlyWhen(s: State, o: string)
    requires Reachable(s) && o != "" && o !in s.runners
    ensures var t, monitor := Next(s, Observe(o)), s.docs.monitor;
            && (o in t.runners <==>
                  EndpointPath(monitor.fields) == Text("/metrics") && Get(monitor.ann, ProbeOwner) == Null)
            && (o in t.runners ==> t.runners[o].phase == Observed && t.runners[o].before == monitor)
            && t.docs == s.docs && t.ctl == s.ctl
  {
    ReachableInv(s);
    assert Stored(s.docs.At(Monitor));
  }

  lemma LockVerdict(s: State, o: string)
    requires Inv(s)
    ensures ClaimExternal(s.docs.config, o).Perform? <==> !RunOwned(s) && !ProbeOwned(s)
  {
    ClaimIsOnConfig(s);
    assert DocInv(s.docs.At(Config), Config, s.claim, s.snap.At(Config), Config in s.edited);
  }

  /** A delivered mark lands if and only if the monitor is still the recorded one and can carry it; then it names the
      runner and points at the fault path, and otherwise nothing is written. */
  lemma MarkSucceedsExactlyWhen(s: State, o: string)
    requires Reachable(s) && o in s.runners && s.runners[o].phase.Holding?
    ensures var monitor, before, t := s.docs.monitor, s.runners[o].before, Next(s, Mark(o, Acknowledged));
            var fits := before == monitor && HasEndpointPath(monitor.fields) && monitor.ann != map[];
            && (fits ==> Get(t.docs.monitor.ann, ProbeOwner) == Text(o)
                         && EndpointPath(t.docs.monitor.fields) == Text("/metrics-v2")
                         && t.docs == s.docs.With(Monitor, t.docs.monitor))
            && (!fits ==> t.docs == s.docs)
  {
    ReachableInv(s);
    RunnerReads(s.docs, s.runners, o);
    SameDocs(s, Monitor);
    if s.runners[o].before == s.docs.monitor {
      MarkMonitorEffect(s.docs.monitor, o, Acknowledged);
      PathIsSetTo(s.docs.monitor.fields);
    } else {
      OpsAreAtomic(s.docs.monitor, MarkMonitor(s.runners[o].before, o), Acknowledged);
    }
  }

  lemma PathIsSetTo(fields: map<Name, Json>)
    ensures HasEndpointPath(fields) ==>
              EndpointPath(WithEndpointPath(fields, Text(FAULT_PATH))) == Text("/metrics-v2")
  {
  }

  // ----- A restore whose requests all succeed -----

  function RestoreSteps(o: string): seq<Step> {
    [Undo(o), UndoFinish(o, Acknowledged), Unlock(o), UnlockFinish(o, Acknowledged)]
  }

  lemma RestoreUnfolds(s: State, o: string)
    ensures Exec(s, RestoreSteps(o))
         == Next(Next(Next(Next(s, Undo(o)), UndoFinish(o, Acknowledged)), Unlock(o)), UnlockFinish(o, Acknowledged))
  {
    var s1, finish := Next(s, Undo(o)), UndoFinish(o, Acknowledged);
    var s2, unlock := Next(s1, finish), UnlockFinish(o, Acknowledged);
    assert RestoreSteps(o)[1..] == [finish, Unlock(o), unlock];
    assert Exec(s1, [finish, Unlock(o), unlock]) == Exec(s2, [Unlock(o), unlock]) by {
      assert [finish, Unlock(o), unlock][1..] == [Unlock(o), unlock];
    }
    TwoSteps(s2, Unlock(o), unlock);
  }

  lemma TwoSteps(s: State, a: Step, b: Step)
    ensures Exec(s, [a, b]) == Next(Next(s, a), b)
  {
    assert [a, b][1..] == [b];
    assert Exec(Next(s, a), [b]) == Exec(Next(Next(s, a), b), []);
  }

  /** The program is over, or about to restore. */
  predicate MayRestore(s: State, o: string) {
    o in s.runners && (s.runners[o].phase.Holding? || s.runners[o].phase.Halted?)
  }

  /** The first half leaves the program stopped with nothing written, or past the monitor. */
  ghost predicate UndoLeft(s: State, o: string, s': State)
    requires o in s.runners
  {
    var monitor, before := s.docs.monitor, s.runners[o].before;
    && o in s'.runners
    && match RestoreMonitor(monitor, before, o)
       case Stop => s'.docs == s.docs && s'.runners[o].phase.Halted?
       case Skip => s'.docs == s.docs && s'.runners[o].phase.Undone?
       case Perform(_) =>
         && HasEndpointPath(monitor.fields) && s'.runners[o].phase.Undone?
         && s'.docs == s.docs.With(Monitor, Commit(monitor, monitor.ann - {ProbeOwner},
             WithEndpointPath(monitor.fields, EndpointPath(before.fields))))
  }

  lemma UndoBegins(s: State, o: string)
    requires MayRestore(s, o)
    ensures Next(s, Undo(o)) == SetPhase(s, o, Undoing(s.docs.monitor))
  {
  }

  lemma UndoEnds(s: State, o: string)
    requires o in s.runners && s.runners[o].phase == Undoing(s.docs.monitor)
    ensures UndoLeft(s, o, Next(s, UndoFinish(o, Acknowledged)))
  {
    if RestoreMonitor(s.docs.monitor, s.runners[o].before, o).Perform? {
      UndoLands(s, o, Acknowledged);
    }
  }

  /** The mark and the path, if they are the runner's own. */
  lemma UndoHalf(s: State, o: string)
    requires MayRestore(s, o)
    ensures UndoLeft(s, o, Next(Next(s, Undo(o)), UndoFinish(o, Acknowledged)))
  {
    UndoBegins(s, o);
    UndoEnds(SetPhase(s, o, Undoing(s.docs.monitor)), o);
  }

  /** The second half leaves no lock of this program, and takes no other. */
  ghost predicate UnlockLeft(docs: Docs, o: string, docs': Docs) {
    && docs'.monitor == docs.monitor && docs'.service == docs.service && docs'.config.fields == docs.config.fields
    && !Locked(docs', o) && (Locked(docs, o) ==> ProbeOwner !in docs'.config.ann)
    && (!Locked(docs, o) ==> docs' == docs)
  }

  lemma UnlockBegins(s: State, o: string)
    requires o in s.runners && s.runners[o].phase.Undone?
    ensures Next(s, Unlock(o)) == SetPhase(s, o, Unlocking(s.docs.config))
  {
  }

  lemma UnlockEnds(s: State, o: string)
    requires o in s.runners && s.runners[o].phase == Unlocking(s.docs.config)
    ensures UnlockLeft(s.docs, o, Next(s, UnlockFinish(o, Acknowledged)).docs)
  {
    if Locked(s.docs, o) {
      UnlockLands(s, o, Acknowledged);
    }
  }

  lemma UnlockHalf(s: State, o: string)
    requires o in s.runners && s.runners[o].phase.Undone?
    ensures UnlockLeft(s.docs, o, Next(Next(s, Unlock(o)), UnlockFinish(o, Acknowledged)).docs)
  {
    UnlockBegins(s, o);
    UnlockEnds(SetPhase(s, o, Unlocking(s.docs.config)), o);
  }

  /** The restore has something it recognises to work on: its own mark at the fault path, or no mark and the
      recorded path. */
  predicate Recognised(monitor: Doc, before: Doc, o: string) {
    || (Get(monitor.ann, ProbeOwner) == Text(o) && EndpointPath(monitor.fields) == Text(FAULT_PATH))
    || (Get(monitor.ann, ProbeOwner) == Null && EndpointPath(monitor.fields) == EndpointPath(before.fields))
  }

  /** The monitor at its recorded path without a mark, and no lock of this runner. */
  predicate TakenBack(docs: Docs, before: Doc, o: string) {
    && ProbeOwner !in docs.monitor.ann && EndpointPath(docs.monitor.fields) == EndpointPath(before.fields)
    && !Locked(docs, o)
  }

  lemma UndoStops(s: State, o: string)
    requires o in s.runners && s.runners[o].phase.Halted?
    ensures Next(Next(s, Unlock(o)), UnlockFinish(o, Acknowledged)) == s
  {
  }

  /** What the verdict on the monitor says, given that the server stores no nulls. */
  lemma VerdictMeans(monitor: Doc, before: Doc, o: string)
    requires Stored(monitor)
    ensures var verdict := RestoreMonitor(monitor, before, o);
            && (verdict.Stop? <==> !Recognised(monitor, before, o))
            && (verdict.Skip? ==> ProbeOwner !in monitor.ann
                                  && EndpointPath(monitor.fields) == EndpointPath(before.fields))
            && (verdict.Stop? ==> ProbeOwner in monitor.ann
                                  || EndpointPath(monitor.fields) != EndpointPath(before.fields))
  {
  }

  lemma PathIsSet(fields: map<Name, Json>, path: Json)
    requires HasEndpointPath(fields)
    ensures EndpointPath(WithEndpointPath(fields, path)) == path
  {
  }

  /** What the whole restore leaves: the two halves, one after the other. */
  ghost predicate RestoreLeft(s: State, o: string, docs': Docs)
    requires o in s.runners
  {
    exists s': State :: UndoLeft(s, o, s') && if s'.runners[o].phase.Undone? then UnlockLeft(s'.docs, o, docs')
        else docs' == s'.docs
  }

  lemma RestoreLeaves(s: State, o: string)
    requires MayRestore(s, o)
    ensures RestoreLeft(s, o, Exec(s, RestoreSteps(o)).docs)
  {
    RestoreUnfolds(s, o);
    UndoHalf(s, o);
    var s' := Next(Next(s, Undo(o)), UndoFinish(o, Acknowledged));
    if s'.runners[o].phase.Undone? {
      UnlockHalf(s', o);
    } else {
      UndoStops(s', o);
    }
  }

  lemma LeftMeans(s: State, o: string, docs': Docs)
    requires o in s.runners && RestoreLeft(s, o, docs')
    ensures var monitor, before := s.docs.monitor, s.runners[o].before;
            var verdict := RestoreMonitor(monitor, before, o);
            && (verdict.Stop? ==> docs' == s.docs)
            && (verdict.Skip? ==> docs'.monitor == monitor)
            && (verdict.Perform? ==>
                  && HasEndpointPath(monitor.fields)
                  && docs'.monitor == Commit(monitor, monitor.ann - {ProbeOwner},
                      WithEndpointPath(monitor.fields, EndpointPath(before.fields))))
            && (!verdict.Stop? ==> !Locked(docs', o) && (Locked(s.docs, o) ==> ProbeOwner !in docs'.config.ann))
            && docs'.service == s.docs.service && docs'.config.fields == s.docs.config.fields
  {
  }

  /** From any state of any run: a restore whose requests all succeed takes everything of this runner back if and
      only if it recognises what it finds on the monitor; otherwise it writes nothing. */
  lemma RestoreWorksExactlyWhen(s: State, o: string)
    requires Reachable(s) && MayRestore(s, o)
    ensures var t, before := Exec(s, RestoreSteps(o)), s.runners[o].before;
            && (TakenBack(t.docs, before, o) <==> Recognised(s.docs.monitor, before, o))
            && (!Recognised(s.docs.monitor, before, o) ==> t.docs == s.docs)
            && t.docs.service == s.docs.service && t.docs.config.fields == s.docs.config.fields
  {
    StoredMonitor(s);
    var monitor, before := s.docs.monitor, s.runners[o].before;
    VerdictMeans(monitor, before, o);
    RestoreLeaves(s, o);
    LeftMeans(s, o, Exec(s, RestoreSteps(o)).docs);
    if RestoreMonitor(monitor, before, o).Perform? {
      PathIsSet(monitor.fields, EndpointPath(before.fields));
    }
  }

  lemma StoredMonitor(s: State)
    requires Reachable(s)
    ensures Stored(s.docs.monitor)
  {
    ReachableInv(s);
    assert Stored(s.docs.At(Monitor));
  }

  // ----- Runs in which no outsider edits the monitor -----

  ghost predicate SameForeign(doc: Doc, first: Doc) {
    forall name | !LabName(name) :: Get(doc.ann, name) == Get(first.ann, name)
  }

  /** The monitor of an unclaimed Lab: as it was at first, but for a runner's mark and fault path. */
  ghost predicate MonitorAsFirst(monitor: Doc, first: Doc) {
    && SameForeign(monitor, first)
    && if ProbeOwner in monitor.ann then
         && HasEndpointPath(first.fields) && EndpointPath(first.fields) == Text("/metrics")
         && monitor.fields == WithEndpointPath(first.fields, Text(FAULT_PATH))
       else monitor.fields == first.fields
  }

  /** What every runner saw before it began. */
  ghost predicate RecordsOk(runners: map<string, Runner>) {
    forall o | o in runners ::
      EndpointPath(runners[o].before.fields) == Text("/metrics") && ProbeOwner !in runners[o].before.ann
  }

  /** `first` is the monitor as the run found it. */
  ghost predicate Unedited(s: State, first: Doc) {
    && RecordsOk(s.runners)
    && (s.claim.None? ==> MonitorAsFirst(s.docs.monitor, first))
    && (s.claim.Some? ==> Monitor !in s.edited && RestoredTo(s.snap.monitor, first))
  }

  /** What one program's step may do to the table of programs. */
  ghost predicate SameRecords(runners: map<string, Runner>, runners': map<string, Runner>) {
    forall o | o in runners' :: o in runners && runners'[o].before == runners[o].before
  }

  lemma ConfigStepRecords(s: State, o: string, fate: Fate)
    ensures SameRecords(s.runners, RunnerStep(s, LockFinish(o, fate)).runners)
    ensures SameRecords(s.runners, RunnerStep(s, UnlockFinish(o, fate)).runners)
  {
  }

  lemma MonitorStepRecords(s: State, o: string, fate: Fate)
    ensures SameRecords(s.runners, RunnerStep(s, Mark(o, fate)).runners)
    ensures SameRecords(s.runners, RunnerStep(s, UndoFinish(o, fate)).runners)
  {
  }

  lemma PhaseStepRecords(s: State, step: Step)
    requires step.Lock? || step.Undo? || step.Unlock? || step.Halt?
    ensures SameRecords(s.runners, RunnerStep(s, step).runners)
  {
    var s' := RunnerStep(s, step);
    assert s'.runners == s.runners
      || (step.o in s.runners && s' == SetPhase(s, step.o, s'.runners[step.o].phase));
  }

  lemma RecordsKept(s: State, step: Step)
    requires RecordsOk(s.runners)
    ensures RecordsOk(RunnerStep(s, step).runners)
  {
    match step
    case LockFinish(o, fate) => ConfigStepRecords(s, o, fate);
    case UnlockFinish(o, fate) => ConfigStepRecords(s, o, fate);
    case Mark(o, fate) => MonitorStepRecords(s, o, fate);
    case UndoFinish(o, fate) => MonitorStepRecords(s, o, fate);
    case Lock(o) => PhaseStepRecords(s, step);
    case Undo(o) => PhaseStepRecords(s, step);
    case Unlock(o) => PhaseStepRecords(s, step);
    case Halt(o) => PhaseStepRecords(s, step);
    case _ =>
  }

  lemma ControllerKeepsRunners(s: State, step: Step)
    ensures ControllerStep(s, step).runners == s.runners
  {
  }

  /** A claim finds the monitor unmarked. */
  lemma ClaimUnedited(s: State, s': State, first: Doc)
    requires DocsInv(s) && ClaimMoves(s, s') && Unedited(s, first) && s'.runners == s.runners
    requires s.claim.None? || s'.claim.Some?
    ensures Unedited(s', first)
  {
    if s.claim.None? && s'.claim.Some? {
      UnlockedIsUnmarked(s);
    }
  }

  /** And its clear leaves it restored. */
  lemma ClearUnedited(s: State, step: Step, first: Doc)
    requires Inv(s) && Unedited(s, first) && s.claim.Some? && Next(s, step).claim.None?
    requires Next(s, step).runners == s.runners
    ensures Unedited(Next(s, step), first)
  {
    ClaimIsClearedLast(s, step);
    NextInv(s, step);
    ClearedIsUnmarked(s, step, first);
  }

  lemma ControllerUnedited(s: State, step: Step, first: Doc)
    requires Inv(s) && Unedited(s, first) && Next(s, step) == ControllerStep(s, step) && !step.Edit?
    ensures Unedited(Next(s, step), first)
  {
    ControllerKeepsRunners(s, step);
    ControllerClaims(s, step);
    if s.claim.Some? && Next(s, step).claim.None? {
      ClearUnedited(s, step, first);
    } else {
      ClaimUnedited(s, ControllerStep(s, step), first);
    }
  }

  lemma UnlockedIsUnmarked(s: State)
    requires DocsInv(s) && !ProbeOwned(s)
    ensures ProbeOwner !in s.docs.monitor.ann
  {
    assert Stored(s.docs.At(Monitor));
  }

  lemma ClearedIsUnmarked(s: State, step: Step, first: Doc)
    requires Inv(s) && s.claim.Some? && Next(s, step).claim.None? && DocsInv(Next(s, step))
    requires RestoredTo(Next(s, step).docs.monitor, s.snap.monitor) && RestoredTo(s.snap.monitor, first)
    ensures MonitorAsFirst(Next(s, step).docs.monitor, first)
  {
    ClearStep(s, step);
    ClaimIsOnConfig(s);
    UnlockedIsUnmarked(Next(s, step));
  }

  lemma MarkedAsFirst(monitor: Doc, first: Doc, o: string)
    requires SameForeign(monitor, first) && monitor.fields == first.fields && HasEndpointPath(monitor.fields)
    requires EndpointPath(monitor.fields) == Text("/metrics")
    ensures MonitorAsFirst(Commit(monitor, monitor.ann[ProbeOwner := Text(o)],
                WithEndpointPath(monitor.fields, Text(FAULT_PATH))), first)
  {
  }

  lemma MarkUnedited(s: State, o: string, fate: Fate, first: Doc)
    requires RunnersInv(s.docs, s.runners) && RecordsOk(s.runners) && MonitorAsFirst(s.docs.monitor, first)
    ensures MonitorAsFirst(RunnerStep(s, Mark(o, fate)).docs.monitor, first)
  {
    if o in s.runners && s.runners[o].phase.Holding? {
      RunnerReads(s.docs, s.runners, o);
      var monitor, before := s.docs.monitor, s.runners[o].before;
      if before == monitor {
        MarkMonitorEffect(monitor, o, fate);
        if Markable(monitor) {
          MarkedAsFirst(monitor, first, o);
        }
      } else {
        OpsAreAtomic(monitor, MarkMonitor(before, o), fate);
      }
    }
  }

  lemma PathBack(fields: map<Name, Json>, path: Json, other: Json)
    requires HasEndpointPath(fields) && EndpointPath(fields) == path
    ensures HasEndpointPath(WithEndpointPath(fields, other))
    ensures WithEndpointPath(WithEndpointPath(fields, other), path) == fields
  {
    var items := fields[Endpoints].items;
    assert items[0].members[Path := other][Path := path] == items[0].members;
    assert items[0 := Object(items[0].members[Path := other])][0 := Object(items[0].members)] == items;
  }

  lemma UndoneAsFirst(monitor: Doc, first: Doc, path: Json)
    requires MonitorAsFirst(monitor, first) && ProbeOwner in monitor.ann && path == Text("/metrics")
    requires HasEndpointPath(monitor.fields)
    ensures MonitorAsFirst(Commit(monitor, monitor.ann - {ProbeOwner}, WithEndpointPath(monitor.fields, path)), first)
  {
    PathBack(first.fields, path, Text(FAULT_PATH));
  }

  lemma LandedUndo(s: State, o: string, fate: Fate, first: Doc)
    requires RunnersInv(s.docs, s.runners) && RecordsOk(s.runners) && MonitorAsFirst(s.docs.monitor, first)
    requires o in s.runners && s.runners[o].phase == Undoing(s.docs.monitor) && fate != Dropped
    requires RestoreMonitor(s.docs.monitor, s.runners[o].before, o).Perform?
    ensures MonitorAsFirst(RunnerStep(s, UndoFinish(o, fate)).docs.monitor, first)
  {
    UndoLands(s, o, fate);
    UndoneAsFirst(s.docs.monitor, first, EndpointPath(s.runners[o].before.fields));
  }

  lemma UndoUnedited(s: State, o: string, fate: Fate, first: Doc)
    requires RunnersInv(s.docs, s.runners) && RecordsOk(s.runners) && MonitorAsFirst(s.docs.monitor, first)
    ensures MonitorAsFirst(RunnerStep(s, UndoFinish(o, fate)).docs.monitor, first)
  {
    if o in s.runners && s.runners[o].phase.Undoing? {
      if s.runners[o].phase.read == s.docs.monitor && fate != Dropped
         && RestoreMonitor(s.docs.monitor, s.runners[o].before, o).Perform? {
        LandedUndo(s, o, fate, first);
      } else {
        UndoElsewhere(s, o, fate);
      }
    }
  }

  lemma RunnerUnedited(s: State, step: Step, first: Doc)
    requires Inv(s) && Unedited(s, first) && Next(s, step) == RunnerStep(s, step) && !step.Edit?
    ensures Unedited(Next(s, step), first)
  {
    RecordsKept(s, step);
    RunnerWrites(s, step);
    if s.claim.None? {
      match step
      case Mark(o, fate) => MarkUnedited(s, o, fate, first);
      case UndoFinish(o, fate) => UndoUnedited(s, o, fate, first);
      case LockFinish(o, fate) => assert Next(s, step).docs.monitor == s.docs.monitor;
      case UnlockFinish(o, fate) => assert Next(s, step).docs.monitor == s.docs.monitor;
      case _ =>
    }
  }

  predicate EditsMonitor(step: Step) {
    step.Edit? && step.r == Monitor
  }

  lemma NextUnedited(s: State, step: Step, first: Doc)
    requires Inv(s) && Unedited(s, first) && !EditsMonitor(step)
    ensures Unedited(Next(s, step), first)
  {
    if !step.Edit? {
      if Next(s, step) == RunnerStep(s, step) {
        RunnerUnedited(s, step, first);
      } else {
        ControllerUnedited(s, step, first);
      }
    }
  }

  lemma {:induction false} ExecUnedited(s: State, steps: seq<Step>, first: Doc)
    requires Inv(s) && Unedited(s, first) && forall i | 0 <= i < |steps| :: !EditsMonitor(steps[i])
    ensures Inv(Exec(s, steps)) && Unedited(Exec(s, steps), first)
    decreases |steps|
  {
    if steps != [] {
      NextInv(s, steps[0]);
      NextUnedited(s, steps[0], first);
      ExecUnedited(Next(s, steps[0]), steps[1..], first);
    }
  }

  /** What a runner with the lock finds on a monitor that nobody else edited. */
  lemma HolderFinds(monitor: Doc, before: Doc, o: string, first: Doc)
    requires Stored(monitor) && MonitorAsFirst(monitor, first)
    requires EndpointPath(before.fields) == Text("/metrics")
    requires ProbeOwner in monitor.ann ==> Get(monitor.ann, ProbeOwner) == Text(o)
    ensures Recognised(monitor, before, o) <==> EndpointPath(first.fields) == Text("/metrics")
    ensures RestoreMonitor(monitor, before, o).Perform? ==>
              HasEndpointPath(monitor.fields)
              && WithEndpointPath(monitor.fields, EndpointPath(before.fields)) == first.fields
  {
    if ProbeOwner in monitor.ann {
      PathIsSet(first.fields, Text(FAULT_PATH));
      PathBack(first.fields, Text("/metrics"), Text(FAULT_PATH));
    }
  }

  lemma Unmarked(monitor: Doc, first: Doc, fields: map<Name, Json>)
    requires SameForeign(monitor, first) && fields == first.fields
    ensures var after := Commit(monitor, monitor.ann - {ProbeOwner}, fields);
            ProbeOwner !in after.ann && RestoredTo(after, first)
  {
  }

  lemma HolderRestores(s: State, o: string, first: Doc)
    requires MayRestore(s, o) && Locked(s.docs, o) && ProbeOwner in s.docs.config.ann
    requires Stored(s.docs.monitor) && MonitorAsFirst(s.docs.monitor, first) && RecordsOk(s.runners)
    requires ProbeOwner in s.docs.monitor.ann ==> Get(s.docs.monitor.ann, ProbeOwner) == Text(o)
    ensures var docs := Exec(s, RestoreSteps(o)).docs;
            && (ProbeOwner !in docs.config.ann <==> EndpointPath(first.fields) == Text("/metrics"))
            && (ProbeOwner !in docs.config.ann ==> ProbeOwner !in docs.monitor.ann && RestoredTo(docs.monitor, first))
  {
    var monitor, before := s.docs.monitor, s.runners[o].before;
    VerdictMeans(monitor, before, o);
    HolderFinds(monitor, before, o, first);
    RestoreLeaves(s, o);
    LeftMeans(s, o, Exec(s, RestoreSteps(o)).docs);
    if RestoreMonitor(monitor, before, o).Perform? {
      Unmarked(monitor, first, WithEndpointPath(monitor.fields, EndpointPath(before.fields)));
    }
  }

  /** In every run in which no outsider edits the monitor, and from every point at which a runner that is over holds
      the lock: its restore gives the monitor the fields and annotations that the run found, and the lock is gone, if
      and only if the run found the monitor at `/metrics`. */
  lemma LockIsRecoverable(s0: State, steps: seq<Step>, o: string)
    requires Init(s0) && forall i | 0 <= i < |steps| :: !EditsMonitor(steps[i])
    requires MayRestore(Exec(s0, steps), o) && Locked(Exec(s0, steps).docs, o)
    ensures var docs := Exec(Exec(s0, steps), RestoreSteps(o)).docs;
            && (ProbeOwner !in docs.config.ann <==> EndpointPath(s0.docs.monitor.fields) == Text("/metrics"))
            && (ProbeOwner !in docs.config.ann ==>
                  ProbeOwner !in docs.monitor.ann && RestoredTo(docs.monitor, s0.docs.monitor))
  {
    InitInv(s0);
    InitUnedited(s0);
    ExecUnedited(s0, steps, s0.docs.monitor);
    HolderOf(Exec(s0, steps), o);
    HolderRestores(Exec(s0, steps), o, s0.docs.monitor);
  }

  lemma InitUnedited(s: State)
    requires Init(s)
    ensures Unedited(s, s.docs.monitor)
  {
    assert LabName(ProbeOwner) && ProbeOwner !in s.docs.At(Monitor).ann;
  }

  /** While a runner holds the lock, a mark on the monitor can only be its own. */
  lemma HolderOf(s: State, o: string)
    requires Inv(s) && Locked(s.docs, o)
    ensures s.claim.None? && Stored(s.docs.monitor)
    ensures ProbeOwner in s.docs.monitor.ann ==> Get(s.docs.monitor.ann, ProbeOwner) == Text(o)
    ensures ProbeOwner in s.docs.config.ann
  {
    ProbeMeansUnclaimed(s);
    assert Stored(s.docs.At(Monitor));
  }
}
