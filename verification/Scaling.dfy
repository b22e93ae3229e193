/** The runner's ownership of the traffic generator: scale up, journal, and scale back down only what is its own. */
module Scaling {
  import opened Wrappers

  const DESIRED: nat := 1

  /** `template` is the rest of the spec. */
  datatype Deployment = Deployment(uid: nat, generation: nat, version: nat, replicas: nat, template: string)

  // ----- The API server -----

  /** Generation grows exactly when the spec changes; the version grows with every write. */
  function SetSpec(d: Deployment, replicas: nat, template: string): Deployment {
    if replicas == d.replicas && template == d.template then d
    else d.(replicas := replicas, template := template, generation := d.generation + 1, version := d.version + 1)
  }

  /** `kubectl scale` with both preconditions. */
  function Scale(d: Deployment, to: nat, current: nat, version: nat): Option<Deployment> {
    if d.replicas == current && d.version == version then Some(SetSpec(d, to, d.template)) else None
  }

  // ----- The journal -----

  datatype Status = Prepared | Starting | Started | Restored

  /** `traffic-generator.json`. */
  datatype Journal = Journal(uid: nat, generation: nat, version: nat, previous: nat, applied: Option<nat>,
      status: Status)

  datatype Verdict = NotStarted | AlreadyRestored | Refused | ScaleDown(version: nat)

  function Expected(j: Journal): nat {
    if j.applied.Some? then j.applied.value else j.generation + 1
  }

  /** What restore decides from one read. */
  function Decide(j: Journal, d: Deployment): Verdict {
    if j.status.Prepared? then NotStarted
    else if d.uid != j.uid then Refused
    else if d.replicas == j.previous then AlreadyRestored
    else if d.replicas != DESIRED || d.generation != Expected(j) then Refused
    else ScaleDown(d.version)
  }

  // ----- The polling loops -----

  datatype ScaleUp = Applied(generation: nat) | IdentityChanged | NotAdvanced | NotObserved

  predicate StillWaiting(j: Journal, d: Deployment) {
    d.uid == j.uid && d.replicas != DESIRED
  }

  /** The wait after scaling up; `observed` are the reads made in time. */
  method AwaitScaleUp(j: Journal, observed: seq<Deployment>) returns (result: ScaleUp)
    ensures result.NotObserved? <==> forall i | 0 <= i < |observed| :: StillWaiting(j, observed[i])
    ensures !result.NotObserved? ==>
              exists n | 0 <= n < |observed| ::
                && (forall i | 0 <= i < n :: StillWaiting(j, observed[i])) && !StillWaiting(j, observed[n])
                && (result.IdentityChanged? <==> observed[n].uid != j.uid)
                && (result.Applied? <==> observed[n].uid == j.uid && observed[n].generation > j.generation)
                && (result.Applied? ==> result.generation == observed[n].generation && observed[n].replicas == 1)
  {
    for n := 0 to |observed|
      invariant forall i | 0 <= i < n :: StillWaiting(j, observed[i])
    {
      var current := observed[n];
      if current.uid != j.uid { return IdentityChanged; }
      if current.replicas == DESIRED {
        if current.generation <= j.generation { return NotAdvanced; }
        return Applied(current.generation);
      }
    }
    result := NotObserved;
  }

  /** A read during scale-down, and whether every replica counter is zero. */
  datatype Drain = Drain(current: Deployment, empty: bool)

  predicate OwnDrain(j: Journal, d: Deployment) {
    d.uid == j.uid && d.replicas == j.previous && d.generation == Expected(j) + 1
  }

  /** The wait after scaling down ends well at the first empty read, if every read up to it shows the runner's
      own scale-down and nobody else's edit. */
  method AwaitStopped(j: Journal, observed: seq<Drain>) returns (restored: bool)
    ensures restored <==> exists n | 0 <= n < |observed| ::
              observed[n].empty && forall i | 0 <= i <= n ::
                  && observed[i].current.uid == j.uid && observed[i].current.replicas == j.previous
                  && observed[i].current.generation
                     == (if j.applied == None then j.generation + 2 else j.applied.value + 1)
                  && (i < n ==> !observed[i].empty)
  {
    for n := 0 to |observed|
      invariant forall i | 0 <= i < n :: OwnDrain(j, observed[i].current) && !observed[i].empty
    {
      if !OwnDrain(j, observed[n].current) { return false; }
      if observed[n].empty { return true; }
    }
    restored := false;
  }

  // ----- The runner among other clients -----

  /** `Restoring(version)` read the deployment and is about to scale it down. */
  datatype Pc =
    | Unprepared | Ready | Confirmed | ScaledOrNot | Seen(generation: nat) | Running
    | Restoring(version: nat) | Over

  /** `acknowledged`: the scale-up call returned; the runner sees it, but the journal does not record it.
      History: `changes` counts spec changes and replacements since preparation, `foreign` those by others since
      preparation, `later` those by others since the read whose generation is journaled, `own` whether the
      runner's scale-up took effect, and `down` whether its scale-down did. */
  datatype State = State(d: Deployment, journal: Option<Journal>, pc: Pc, acknowledged: bool,
                         changes: nat, foreign: nat, later: nat, own: bool, down: bool)

  datatype Step =
    | Edit(replicas: nat, template: string)
    | StatusUpdate
    | Replace(uid: nat, replicas: nat)
    | Prepare
    | Confirm
    | ScaleOut(replied: bool)
    | Observe
    | SaveApplied
    | Crash
    | RestoreRead
    | RestoreWrite

  function EditStep(s: State, replicas: nat, template: string): State {
    var d' := SetSpec(s.d, replicas, template);
    if d' == s.d then s else s.(d := d', changes := s.changes + 1, foreign := s.foreign + 1, later := s.later + 1)
  }

  /** A refused call raises; so does a lost reply. */
  function ScaleOutStep(s: State, j: Journal, replied: bool): State {
    var scaled := Scale(s.d, DESIRED, j.previous, j.version);
    if scaled.None? then s.(pc := Over)
    else
      s.(d := scaled.value, pc := if replied then ScaledOrNot else Over, acknowledged := replied,
         changes := s.changes + 1, own := true)
  }

  function WriteStep(s: State, j: Journal): State
    requires s.pc.Restoring?
  {
    var scaled := Scale(s.d, j.previous, DESIRED, s.pc.version);
    if scaled.None? then s.(pc := Over) else s.(d := scaled.value, pc := Over, changes := s.changes + 1, down := true)
  }

  /** A step that is not enabled does nothing; `Over` and `Running` can both go on to restore. */
  function Next(s: State, step: Step): State {
    match step
    case Edit(replicas, template) => EditStep(s, replicas, template)
    case StatusUpdate => s.(d := s.d.(version := s.d.version + 1))
    case Replace(uid, replicas) =>
      if uid <= s.d.uid then s
      else s.(d := Deployment(uid, 1, s.d.version + 1, replicas, s.d.template),
              changes := s.changes + 1, foreign := s.foreign + 1, later := s.later + 1)
    case Prepare =>
      if s.pc.Unprepared? && s.d.replicas == 0
      then s.(pc := Ready, journal := Some(Journal(s.d.uid, s.d.generation, s.d.version, s.d.replicas, None, Prepared)),
              changes := 0, foreign := 0, later := 0)
      else s
    case Confirm =>
      if s.pc.Ready? && s.journal.Some? then s.(pc := Confirmed, journal := Some(s.journal.value.(status := Starting)))
          else s
    case ScaleOut(replied) =>
      if s.pc.Confirmed? && s.journal.Some?
      then ScaleOutStep(s, s.journal.value, replied)
      else s
    case Observe =>
      if s.pc.ScaledOrNot? && s.journal.Some? && s.d.uid == s.journal.value.uid && s.d.replicas == DESIRED
         && s.d.generation > s.journal.value.generation
      then s.(pc := Seen(s.d.generation), later := 0) else s
    case SaveApplied =>
      if s.pc.Seen? && s.journal.Some?
      then s.(pc := Running, journal := Some(s.journal.value.(applied := Some(s.pc.generation), status := Started)))
          else s
    case Crash => if s.pc.Unprepared? then s else s.(pc := Over)
    case RestoreRead =>
      if (s.pc.Running? || s.pc.Over?) && s.journal.Some?
      then match Decide(s.journal.value, s.d)
           case ScaleDown(version) => s.(pc := Restoring(version))
           case AlreadyRestored => s.(pc := Over, journal := Some(s.journal.value.(status := Restored)))
           case _ => s.(pc := Over)
      else s
    case RestoreWrite => if s.pc.Restoring? && s.journal.Some? then WriteStep(s, s.journal.value) else s
  }

  function Exec(s: State, steps: seq<Step>): State
    decreases |steps|
  {
    if steps == [] then s else Exec(Next(s, steps[0]), steps[1..])
  }

  predicate Init(s: State) {
    s.journal.None? && s.pc.Unprepared? && s.changes == 0 && s.foreign == 0 && s.later == 0 && !s.own && !s.down
    && !s.acknowledged
  }

  // ----- Invariant -----

  ghost predicate JournalInv(s: State, j: Journal) {
    && j.previous == 0 && j.uid <= s.d.uid && j.version <= s.d.version
    && (s.d.uid == j.uid ==> s.d.generation == j.generation + s.changes)
    && (s.d.uid == j.uid && s.changes == 0 ==> s.d.replicas == 0)
    && s.changes == s.foreign + (if s.own then 1 else 0) + (if s.down then 1 else 0)
    && (s.d.uid != j.uid ==> s.foreign > 0)
    && (j.status.Prepared? ==> (s.pc.Ready? || s.pc.Over?) && !s.own)
    && (s.pc.Ready? ==> j.status.Prepared?) && (s.pc.Confirmed? ==> !s.own)
    && (s.pc.ScaledOrNot? || s.pc.Seen? ==> s.own && j.applied.None? && !s.down)
    && (s.pc.Ready? || s.pc.Confirmed? ==> j.applied.None? && !s.down)
    && (j.applied.Some? ==> s.own) && (s.down ==> s.own || s.foreign > 0)
  }

  /** What the journal and the acknowledged call say of the program. */
  ghost predicate ProgramInv(s: State, j: Journal) {
    && (s.acknowledged ==> s.own) && s.later <= s.foreign
    && (s.pc.ScaledOrNot? || s.pc.Seen? || j.applied.Some? ==> s.acknowledged)
    && (s.pc.Confirmed? || s.pc.ScaledOrNot? || s.pc.Seen? ==> j.status.Starting?)
    && (j.applied.Some? ==> j.status.Started? || j.status.Restored?)
    && (j.applied.None? ==> !j.status.Started?)
    && (s.pc.Seen? ==> s.pc.generation + s.later == j.generation + 1 + s.foreign)
    && (j.applied.Some? ==> j.applied.value + s.later == j.generation + 1 + s.foreign)
    && (j.applied.Some? && j.status.Restored? ==> s.d.uid != j.uid || s.d.generation > j.applied.value)
  }

  /** Since the journaled generation was read: what is there is what the runner left, or others changed it. */
  ghost predicate AppliedInv(s: State, uid: nat, generation: nat) {
    && (s.d.uid == uid ==> s.d.generation >= generation)
    && (s.later > 0 ==> s.d.uid != uid || s.d.generation > generation)
    && (s.later == 0 && !s.down ==> s.d.uid == uid && s.d.generation == generation && s.d.replicas == DESIRED)
    && (s.down ==> s.d.uid != uid || s.d.generation > generation)
  }

  ghost predicate Inv(s: State) {
    && (s.pc.Unprepared? <==> s.journal.None?)
    && (s.pc.Unprepared? ==> !s.own && !s.down && !s.acknowledged)
    && (s.journal.Some? ==>
          var j := s.journal.value;
          && JournalInv(s, j) && ProgramInv(s, j)
          && (s.pc.Seen? ==> AppliedInv(s, j.uid, s.pc.generation))
          && (j.applied.Some? ==> AppliedInv(s, j.uid, j.applied.value))
          && (s.pc.Restoring? ==> s.pc.version <= s.d.version && !j.status.Prepared?)
          && (s.pc.Restoring? && s.pc.version == s.d.version ==>
                s.d.uid == j.uid && s.d.replicas == DESIRED && s.d.generation == Expected(j)))
  }

  lemma OthersKeep(s: State, step: Step)
    requires Inv(s) && (step.Edit? || step.StatusUpdate? || step.Replace?)
    ensures Inv(Next(s, step))
  {
  }

  lemma BeginKeeps(s: State, step: Step)
    requires Inv(s) && (step.Prepare? || step.Confirm? || step.Crash?)
    ensures Inv(Next(s, step))
  {
  }

  lemma ScaleOutKeeps(s: State, replied: bool)
    requires Inv(s)
    ensures Inv(Next(s, ScaleOut(replied)))
  {
  }

  lemma ObserveKeeps(s: State)
    requires Inv(s)
    ensures Inv(Next(s, Observe)) && Inv(Next(s, SaveApplied))
  {
  }

  lemma RestoreReadKeeps(s: State)
    requires Inv(s)
    ensures Inv(Next(s, RestoreRead))
  {
  }

  lemma RestoreWriteKeeps(s: State)
    requires Inv(s)
    ensures Inv(Next(s, RestoreWrite))
  {
  }

  lemma RunnerKeeps(s: State, step: Step)
    requires Inv(s) && !step.Edit? && !step.StatusUpdate? && !step.Replace?
    ensures Inv(Next(s, step))
  {
    match step
    case ScaleOut(replied) => ScaleOutKeeps(s, replied);
    case Observe => ObserveKeeps(s);
    case SaveApplied => ObserveKeeps(s);
    case RestoreRead => RestoreReadKeeps(s);
    case RestoreWrite => RestoreWriteKeeps(s);
    case _ => BeginKeeps(s, step);
  }

  lemma NextInv(s: State, step: Step)
    requires Inv(s)
    ensures Inv(Next(s, step))
  {
    if step.Edit? || step.StatusUpdate? || step.Replace? {
      OthersKeep(s, step);
    } else {
      RunnerKeeps(s, step);
    }
  }

  lemma {:induction false} Reached(s: State, steps: seq<Step>)
    requires Inv(s)
    ensures Inv(Exec(s, steps))
    decreases |steps|
  {
    if steps != [] {
      NextInv(s, steps[0]);
      Reached(Next(s, steps[0]), steps[1..]);
    }
  }

  // ----- What restore does to other people's changes -----

  predicate Journaled(s: State) {
    s.journal.Some? && s.journal.value.applied.Some?
  }

  /** In every run, once the generation of the scale-up is journaled and anybody else has changed the deployment
      since that generation was read, no step of restore writes anything. */
  lemma RestoreSparesLaterChanges(s0: State, steps: seq<Step>, step: Step)
    requires Init(s0) && Journaled(Exec(s0, steps)) && Exec(s0, steps).later > 0
            && (step.RestoreRead? || step.RestoreWrite?)
    ensures Next(Exec(s0, steps), step).d == Exec(s0, steps).d
    ensures var verdict := Decide(Exec(s0, steps).journal.value, Exec(s0, steps).d);
            verdict.Refused? || verdict.AlreadyRestored?
  {
    Reached(s0, steps);
  }

  /** If nobody has, a restore from there puts the recorded replica count back, in one new generation, and
      leaves the rest of the spec. */
  lemma RestoreReturnsTheCount(s0: State, steps: seq<Step>)
    requires Init(s0)
    ensures var s := Exec(s0, steps);
            Journaled(s) && s.later == 0 && !s.down && (s.pc.Running? || s.pc.Over?) ==>
              var t := Next(Next(s, RestoreRead), RestoreWrite);
              && t.down && t.d.replicas == s.journal.value.previous && t.d.uid == s.d.uid
              && t.d.template == s.d.template
              && t.d.generation == s.journal.value.applied.value + 1
  {
    Reached(s0, steps);
  }

  /** In every run, a scale-down that takes effect under a journaled generation follows a scale-up of the runner,
      and nobody changed the deployment since the journaled read. It undoes nobody else's work exactly when the
      journaled generation is the one right after preparation. */
  lemma RestoreUndoesItsOwn(s0: State, steps: seq<Step>)
    requires Init(s0) && Journaled(Exec(s0, steps)) && Exec(s0, steps).pc.Restoring?
    ensures var s := Exec(s0, steps);
            var t := Next(s, RestoreWrite);
            t.d != s.d ==>
              && s.own && s.later == 0 && s.d.replicas == DESIRED
              && t.d.replicas == s.journal.value.previous && t.d.template == s.d.template
              && (s.foreign == 0 <==> s.journal.value.applied.value == s.journal.value.generation + 1)
  {
    Reached(s0, steps);
  }

  /** A run in which it does undo others: they scale down and up again before the runner first looks. */
  lemma JournaledRestoreCanUndoOthers(d: Deployment)
    requires d.replicas == 0
    ensures var s0 := State(d, None, Unprepared, false, 0, 0, 0, false, false);
            var scaled := Next(Next(Next(s0, Prepare), Confirm), ScaleOut(true));
            var scaledByOther := Next(Next(scaled, Edit(0, d.template)), Edit(1, d.template));
            var s := Next(Next(scaledByOther, Observe), SaveApplied);
            && Init(s0) && Journaled(s) && s.later == 0 && s.foreign == 2
            && AfterRestore(s).down && AfterRestore(s).d.replicas == 0
  {
  }

  // ----- Exactly when a restore is safe -----

  predicate MayRestore(s: State) {
    (s.pc.Running? || s.pc.Over?) && s.journal.Some?
  }

  /** A restore with nobody in between. */
  function AfterRestore(s: State): State {
    Next(Next(s, RestoreRead), RestoreWrite)
  }

  /** In every run without a journaled generation, a restore writes exactly when one change was made since
      preparation and it left the desired count; that change was somebody else's exactly when the runner's
      scale-up had not taken effect. */
  lemma UnjournaledRestore(s0: State, steps: seq<Step>)
    requires Init(s0) && MayRestore(Exec(s0, steps)) && !Journaled(Exec(s0, steps))
    ensures var s := Exec(s0, steps);
            var j := s.journal.value;
            && (AfterRestore(s).d != s.d
                <==> !j.status.Prepared? && s.changes == 1 && s.d.uid == j.uid && s.d.replicas == DESIRED)
            && (AfterRestore(s).d != s.d ==> (s.foreign > 0 <==> !s.own))
  {
    Reached(s0, steps);
  }

  /** In every run with one, a restore writes exactly when nobody changed the deployment since the journaled read. */
  lemma JournaledRestore(s0: State, steps: seq<Step>)
    requires Init(s0) && MayRestore(Exec(s0, steps)) && Journaled(Exec(s0, steps))
    ensures var s := Exec(s0, steps); AfterRestore(s).d != s.d <==> s.later == 0 && !s.down
  {
    Reached(s0, steps);
  }

  /** Such a run without a journaled generation: the scale-up is refused because somebody scaled first. */
  lemma UnjournaledRestoreCanUndoOthers(d: Deployment)
    requires d.replicas == 0
    ensures var s0 := State(d, None, Unprepared, false, 0, 0, 0, false, false);
            var scaledByOther := Next(Next(Next(s0, Prepare), Confirm), Edit(1, d.template));
            var s := AfterRestore(Next(scaledByOther, ScaleOut(true)));
            Init(s0) && scaledByOther.foreign == 1 && !s.own && s.down && s.d.replicas == 0
  {
  }

  /** Restoring now changes the deployment although others have changed it since preparation. */
  ghost predicate Disregards(s: State) {
    AfterRestore(s).d != s.d && s.foreign > 0
  }

  /** What the runner can check before it restores: the journal file, and whether its scale-up call returned. */
  predicate Trusted(j: Journal, acknowledged: bool) {
    match j.applied
    case Some(generation) => generation == j.generation + 1 || j.status.Restored?
    case None => j.status.Prepared? || acknowledged
  }

  /** A run after which the runner may restore, seeing this much. */
  ghost predicate Shows(s0: State, steps: seq<Step>, j: Journal, acknowledged: bool) {
    && Init(s0) && MayRestore(Exec(s0, steps))
    && Exec(s0, steps).journal == Some(j) && Exec(s0, steps).acknowledged == acknowledged
  }

  lemma TrustedIsSafe(s0: State, steps: seq<Step>, j: Journal, acknowledged: bool)
    requires Shows(s0, steps, j, acknowledged) && Trusted(j, acknowledged)
    ensures !Disregards(Exec(s0, steps))
  {
    Reached(s0, steps);
  }

  lemma {:induction false} ExecSplit(s: State, before: seq<Step>, after: seq<Step>)
    ensures Exec(s, before + after) == Exec(Exec(s, before), after)
    decreases |before|
  {
    if before == [] {
      assert before + after == after;
    } else {
      assert (before + after)[1..] == before[1..] + after;
      ExecSplit(Next(s, before[0]), before[1..], after);
    }
  }

  function Marks(n: nat): (text: string)
    ensures |text| == n
  {
    if n == 0 then "" else Marks(n - 1) + "x"
  }

  /** `n` edits of the template, all different. */
  function TemplateEdits(n: nat): seq<Step> {
    if n == 0 then [] else TemplateEdits(n - 1) + [Edit(DESIRED, Marks(n))]
  }

  /** The state after a journal's scale-up and `n` such edits by others. */
  function EditedState(j: Journal, n: nat): State {
    State(Deployment(j.uid, j.generation + 1 + n, j.version + 1 + n, DESIRED, Marks(n)),
          Some(j.(applied := None, status := Starting)), ScaledOrNot, true, 1 + n, n, n, true, false)
  }

  lemma {:induction false} EditsRun(j: Journal, n: nat)
    ensures Exec(EditedState(j, 0), TemplateEdits(n)) == EditedState(j, n)
  {
    if n > 0 {
      EditsRun(j, n - 1);
      ExecSplit(EditedState(j, 0), TemplateEdits(n - 1), [Edit(DESIRED, Marks(n))]);
      OneStep(EditedState(j, n - 1), Edit(DESIRED, Marks(n)));
    }
  }

  lemma OneStep(s: State, step: Step)
    ensures Exec(s, [step]) == Next(s, step)
  {
    assert Exec(Next(s, step), []) == Next(s, step);
  }

  lemma TwoSteps(s: State, a: Step, b: Step)
    ensures Exec(s, [a, b]) == Next(Next(s, a), b)
  {
    assert [a, b][1..] == [b];
    OneStep(Next(s, a), b);
  }

  function Beginning(j: Journal): State {
    State(Deployment(j.uid, j.generation, j.version, 0, ""), None, Unprepared, false, 0, 0, 0, false, false)
  }

  /** Others edit between the scale-up and the runner's first look: the journal takes their generations for its own. */
  lemma UntrustedJournal(j: Journal, n: nat) returns (steps: seq<Step>)
    requires j.previous == 0 && j.status.Started? && j.applied == Some(j.generation + 1 + n) && n > 0
    ensures Shows(Beginning(j), steps, j, true) && Disregards(Exec(Beginning(j), steps))
  {
    var up, look := [Prepare, Confirm] + [ScaleOut(true)], [Observe, SaveApplied];
    steps := up + TemplateEdits(n) + look;
    ExecSplit(Beginning(j), up + TemplateEdits(n), look);
    ExecSplit(Beginning(j), up, TemplateEdits(n));
    ExecSplit(Beginning(j), [Prepare, Confirm], [ScaleOut(true)]);
    TwoSteps(Beginning(j), Prepare, Confirm);
    OneStep(Next(Next(Beginning(j), Prepare), Confirm), ScaleOut(true));
    assert Exec(Beginning(j), up) == EditedState(j, 0);
    EditsRun(j, n);
    TwoSteps(EditedState(j, n), Observe, SaveApplied);
  }

  /** Others scale up while the runner's own call is refused or never made. */
  lemma UntrustedSilence(j: Journal) returns (steps: seq<Step>)
    requires j.previous == 0 && j.applied.None? && (j.status.Starting? || j.status.Restored?)
    ensures Shows(Beginning(j), steps, j, false) && Disregards(Exec(Beginning(j), steps))
  {
    var begin := [Prepare, Confirm];
    var stop := if j.status.Starting? then [Crash] else [Crash, RestoreRead];
    steps := begin + stop + [Edit(DESIRED, "")];
    ExecSplit(Beginning(j), begin + stop, [Edit(DESIRED, "")]);
    ExecSplit(Beginning(j), begin, stop);
    TwoSteps(Beginning(j), Prepare, Confirm);
    var confirmed := Next(Next(Beginning(j), Prepare), Confirm);
    OneStep(confirmed, Crash);
    TwoSteps(confirmed, Crash, RestoreRead);
    OneStep(Exec(confirmed, stop), Edit(DESIRED, ""));
  }

  lemma UntrustedIsNot(s0: State, seen: seq<Step>, j: Journal, acknowledged: bool) returns (steps: seq<Step>)
    requires Shows(s0, seen, j, acknowledged) && !Trusted(j, acknowledged)
    ensures Shows(Beginning(j), steps, j, acknowledged) && Disregards(Exec(Beginning(j), steps))
  {
    Reached(s0, seen);
    if j.applied.Some? {
      steps := UntrustedJournal(j, j.applied.value - j.generation - 1);
    } else {
      steps := UntrustedSilence(j);
    }
  }

  /** For everything a runner can see before it restores: in every run that shows it this, its restore disregards
      nobody's change, if and only if what it sees is to be trusted. */
  lemma SafeExactlyWhenTrusted(s0: State, seen: seq<Step>, j: Journal, acknowledged: bool)
    requires Shows(s0, seen, j, acknowledged)
    ensures Trusted(j, acknowledged)
            <==> forall s1, steps | Shows(s1, steps, j, acknowledged) :: !Disregards(Exec(s1, steps))
  {
    if Trusted(j, acknowledged) {
      forall s1, steps | Shows(s1, steps, j, acknowledged) ensures !Disregards(Exec(s1, steps)) {
        TrustedIsSafe(s1, steps, j, acknowledged);
      }
    } else {
      var steps := UntrustedIsNot(s0, seen, j, acknowledged);
      assert Shows(Beginning(j), steps, j, acknowledged);
    }
  }
}
