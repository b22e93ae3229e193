/** The Lab's shared objects under one controller, any number of screenshot runners and outside editors:
    every GET, every PATCH, every crash and every lost reply is a step of its own. */
module LabProtocol {
  import opened Json
  import opened VersionedStore
  import opened FieldJournal
  import opened RunClaim
  import opened Wrappers

  // ----- The controller -----

  /** One request pair of the controller: a GET and the PATCH decided from it. `Notify` stands for the calls to
      the application services, which write nothing here. */
  datatype Op =
    | Claim(run: Run) | Fields(r: Resource, updates: map<Name, Json>) | Job(jobId: int)
    | Restore(r: Resource) | Notify | Clear

  datatype Mode = Resting | Starting | Verifying | Recovering

  datatype Controller = Controller(active: Option<Run>, mode: Mode, todo: seq<Op>, read: Option<Doc>, errors: bool)

  const RESTARTED := Controller(None, Resting, [], None, false)

  function Target(op: Op): Resource {
    match op
    case Fields(r, _) => r
    case Restore(r) => r
    case _ => Config
  }

  function Decide(op: Op, doc: Doc, run: Run): Verdict {
    match op
    case Claim(run') => ClaimRun(doc, run')
    case Fields(r, updates) => ClaimFields(doc, r, run.id, updates)
    case Job(jobId) => PersistJobId(doc, run.id, jobId)
    case Restore(r) => RestoreFields(doc, r, run.id)
    case Notify => Leave
    case Clear => ClearRunClaim(doc, run.id)
  }

  /** The order of `_recover`: the monitor when it is a target, the ConfigMap, the Service, the services, the claim. */
  function RecoveryPlan(run: Run): seq<Op> {
    (if MONITOR_TARGET in run.targets then [Restore(Monitor)] else [])
        + [Restore(Config), Restore(Service), Notify, Clear]
  }

  /** What `_start` may do once the claim is held; only a run that lists the monitor touches it. */
  predicate PlanOk(run: Run, plan: seq<Op>) {
    forall i | 0 <= i < |plan| ::
      match plan[i]
      case Fields(r, updates) => Flat(updates) && (r == Monitor ==> MONITOR_TARGET in run.targets)
      case Job(_) => true
      case Notify => true
      case _ => false
  }

  // ----- The screenshot runners -----

  datatype Phase =
    | Observed            // the monitor was recorded, the Lab is not locked yet
    | Locking(read: Doc)  // inside claim_external_run, after its GET
    | Holding             // the lock is held, the monitor not yet patched by this program
    | Undoing(read: Doc)  // inside restore, after its GET of the monitor
    | Undone              // the monitor part of restore is over
    | Unlocking(read: Doc)
    | Halted              // the program ended or crashed, anywhere

  datatype Runner = Runner(phase: Phase, before: Doc)

  // ----- The system -----

  /** `claim`, `snap` and `edited` are history: the run whose claim the ConfigMap carries, the three documents
      as they were when the latest claim landed, and the documents outsiders edited since. */
  datatype State = State(docs: Docs, ctl: Controller, runners: map<string, Runner>,
                         claim: Option<Run>, snap: Docs, edited: set<Resource>)

  datatype Step =
    | Start(run: Run, plan: seq<Op>)
    | Read
    | Finish(fate: Fate)
    | Fail
    | Verify(readable: bool)
    | Recover
    | Reload
    | End
    | Crash
    | Observe(o: string)
    | Lock(o: string)
    | LockFinish(o: string, fate: Fate)
    | Mark(o: string, fate: Fate)
    | Undo(o: string)
    | UndoFinish(o: string, fate: Fate)
    | Unlock(o: string)
    | UnlockFinish(o: string, fate: Fate)
    | Halt(o: string)
    | Edit(r: Resource, ann: map<Name, Json>, fields: map<Name, Json>)

  predicate LabName(name: Name) {
    name in CLAIM || JournalName(name) || name == ProbeOwner
  }

  /** An outsider may change any field and any annotation that is not the Lab's. */
  ghost predicate EditAllowed(doc: Doc, ann: map<Name, Json>, fields: map<Name, Json>) {
    && NullFreeMembers(ann) && Flat(ann) && NullFreeMembers(fields)
    && forall name | LabName(name) :: Get(ann, name) == Get(doc.ann, name)
  }

  function BeginRecovery(c: Controller): Controller
    requires c.active.Some?
  {
    Controller(c.active, Recovering, RecoveryPlan(c.active.value), None, false)
  }

  /** An exception out of the current operation. */
  function Raise(c: Controller): Controller
    requires c.todo != [] && c.active.Some?
  {
    if c.mode == Starting then (if c.todo[0].Claim? then c.(mode := Verifying, read := None) else BeginRecovery(c))
    else c.(todo := c.todo[1..], read := None, errors := true)
  }

  function Advance(c: Controller): Controller
    requires c.todo != []
  {
    c.(todo := c.todo[1..], read := None)
  }

  predicate Working(c: Controller) {
    && c.active.Some? && (c.mode == Starting || c.mode == Recovering) && c.todo != []
    && !(c.todo[0].Clear? && c.errors)
  }

  /** The claim the ConfigMap carries after the controller's write `op` landed on it. */
  function ClaimAfter(claim: Option<Run>, op: Op): Option<Run> {
    match op
    case Claim(run) => Some(run)
    case Clear => None
    case _ => claim
  }

  function FinishStep(s: State, fate: Fate): State
    requires Working(s.ctl) && s.ctl.read.Some?
  {
    var op, run := s.ctl.todo[0], s.ctl.active.value;
    var verdict := Decide(op, s.ctl.read.value, run);
    if verdict.Refuse? then s.(ctl := Raise(s.ctl))
    else if verdict.Leave? then s.(ctl := Advance(s.ctl))
    else
      var r := Target(op);
      var current := s.docs.At(r);
      var (after, ok) := Send(current, verdict.patch, fate);
      var landed := fate != Dropped && verdict.patch.version == current.version;
      var s' := s.(docs := s.docs.With(r, after), ctl := if ok then Advance(s.ctl) else Raise(s.ctl));
      if !landed then s'
      else s'.(claim := ClaimAfter(s.claim, op),
               snap := if op.Claim? then s.docs else s.snap,
               edited := if op.Claim? then {} else s.edited)
  }

  function VerifyStep(s: State, readable: bool): State
    requires s.ctl.active.Some?
  {
    var persisted := PersistedRun(s.docs);
    if readable && persisted.Found? && persisted.run.id == s.ctl.active.value.id then s.(ctl := BeginRecovery(s.ctl))
    else s.(ctl := RESTARTED)
  }

  function ReloadStep(s: State): State {
    var persisted := PersistedRun(s.docs);
    if persisted.Found? then s.(ctl := BeginRecovery(s.ctl.(active := Some(persisted.run)))) else s
  }

  /** The controller's steps; a step that is not enabled does nothing. */
  function ControllerStep(s: State, step: Step): State {
    var c := s.ctl;
    match step
    case Start(run, plan) =>
      if c.active.None? && c.mode == Resting && PersistedRun(s.docs) == NoRun && ValidRunId(run.id) && run.jobId.None?
          && PlanOk(run, plan)
      then s.(ctl := Controller(Some(run), Starting, [Claim(run)] + plan, None, false)) else s
    case Read => if Working(c) && c.read.None? then s.(ctl := c.(read := Some(s.docs.At(Target(c.todo[0]))))) else s
    case Finish(fate) => if Working(c) && c.read.Some? then FinishStep(s, fate) else s
    case Fail => if Working(c) then s.(ctl := Raise(c)) else s
    case Verify(readable) => if c.active.Some? && c.mode == Verifying then VerifyStep(s, readable) else s
    case Recover => if c.active.Some? && c.mode == Resting then s.(ctl := BeginRecovery(c)) else s
    case Reload => if c.active.None? && c.mode == Resting then ReloadStep(s) else s
    case End =>
      if c.active.None? || (c.mode != Starting && c.mode != Recovering) || Working(c) then s
      else s.(ctl := Controller(if c.mode == Recovering && !c.errors then None else c.active, Resting, [], None, false))
    case Crash => s.(ctl := RESTARTED)
    case _ => s
  }

  function SetPhase(s: State, o: string, phase: Phase): State
    requires o in s.runners
  {
    s.(runners := s.runners[o := s.runners[o].(phase := phase)])
  }

  /** The runner's steps; the preflight demands an unmarked monitor at `/metrics`. `Undo` may follow a crash at
      any point: restore can always be run again by hand. */
  function RunnerStep(s: State, step: Step): State {
    match step
    case Observe(o) =>
      if o != "" && o !in s.runners && EndpointPath(s.docs.monitor.fields) == Text("/metrics")
          && ProbeOwner !in s.docs.monitor.ann
      then s.(runners := s.runners[o := Runner(Observed, s.docs.monitor)]) else s
    case Lock(o) => if o in s.runners && s.runners[o].phase.Observed? then SetPhase(s, o, Locking(s.docs.config)) else s
    case LockFinish(o, fate) =>
      if !(o in s.runners && s.runners[o].phase.Locking?) then s
      else
        var verdict := ClaimExternal(s.runners[o].phase.read, o);
        if !verdict.Perform? then SetPhase(s, o, Halted)
        else
          var (after, ok) := SendOps(s.docs.config, verdict.ops, fate);
          SetPhase(s.(docs := s.docs.With(Config, after)), o, if ok then Holding else Halted)
    case Mark(o, fate) =>
      if !(o in s.runners && s.runners[o].phase.Holding?) then s
      else
        var (after, ok) := SendOps(s.docs.monitor, MarkMonitor(s.runners[o].before, o), fate);
        SetPhase(s.(docs := s.docs.With(Monitor, after)), o, Halted)
    case Undo(o) =>
      if o in s.runners && (s.runners[o].phase.Holding? || s.runners[o].phase.Halted?)
      then SetPhase(s, o, Undoing(s.docs.monitor)) else s
    case UndoFinish(o, fate) =>
      if !(o in s.runners && s.runners[o].phase.Undoing?) then s
      else
        var verdict := RestoreMonitor(s.runners[o].phase.read, s.runners[o].before, o);
        if verdict.Stop? then SetPhase(s, o, Halted)
        else if verdict.Skip? then SetPhase(s, o, Undone)
        else
          var (after, ok) := SendOps(s.docs.monitor, verdict.ops, fate);
          SetPhase(s.(docs := s.docs.With(Monitor, after)), o, if ok then Undone else Halted)
    case Unlock(o) =>
      if o in s.runners && s.runners[o].phase.Undone? then SetPhase(s, o, Unlocking(s.docs.config)) else s
    case UnlockFinish(o, fate) =>
      if !(o in s.runners && s.runners[o].phase.Unlocking?) then s
      else
        var verdict := ReleaseExternal(s.runners[o].phase.read, o);
        if !verdict.Perform? then SetPhase(s, o, Halted)
        else
          var (after, _) := SendOps(s.docs.config, verdict.ops, fate);
          SetPhase(s.(docs := s.docs.With(Config, after)), o, Halted)
    case Halt(o) => if o in s.runners then SetPhase(s, o, Halted) else s
    case _ => s
  }

  ghost function Next(s: State, step: Step): State {
    if step.Edit? then
      var doc := s.docs.At(step.r);
      if EditAllowed(doc, step.ann, step.fields)
      then s.(docs := s.docs.With(step.r, Commit(doc, step.ann, step.fields)), edited := s.edited + {step.r}) else s
    else if step.Observe? || step.Lock? || step.LockFinish? || step.Mark? || step.Undo? || step.UndoFinish?
            || step.Unlock? || step.UnlockFinish? || step.Halt?
    then RunnerStep(s, step)
    else ControllerStep(s, step)
  }

  ghost function Exec(s: State, steps: seq<Step>): State
    decreases |steps|
  {
    if steps == [] then s else Exec(Next(s, steps[0]), steps[1..])
  }
}
