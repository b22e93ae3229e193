/** What every step of the Lab protocol keeps. */
module LabInvariant {
  import opened Json
  import opened VersionedStore
  import opened FieldJournal
  import opened RunClaim
  import opened LabProtocol
  import opened Wrappers

  // ----- The documents -----

  ghost predicate Unclaimed(config: Doc) {
    forall name | name in CLAIM :: name !in config.ann
  }

  ghost predicate ClaimedBy(config: Doc, run: Run) {
    && ValidRunId(run.id) && run.jobId.None?
    && (forall name | name in ClaimEntries(run) :: Get(config.ann, name) == ClaimEntries(run)[name])
    && (Get(config.ann, RunJobId) == Null || IntegerText(Get(config.ann, RunJobId)))
  }

  /** A first-seen value for every applied one; applied values are never merged into. */
  ghost predicate JournalShape(baseline: map<Name, Json>, applied: map<Name, Json>) {
    baseline.Keys == applied.Keys && Flat(applied) && forall key | key in baseline :: NullFree(baseline[key])
  }

  ghost predicate OwnJournal(doc: Doc, id: string) {
    && Get(doc.ann, FieldOwner) == Text(id) && Decodable(doc.ann, FieldBaseline) && Decodable(doc.ann, FieldApplied)
    && JournalShape(Decoded(doc.ann, FieldBaseline), Decoded(doc.ann, FieldApplied))
  }

  /** Restoring would bring back the document as it was when the claim landed. */
  ghost predicate WayBack(doc: Doc, id: string, before: Doc) {
    LeadsBack(doc, id, before.fields) && forall name | !LabName(name) :: Get(doc.ann, name) == Get(before.ann, name)
  }

  ghost predicate DocInv(doc: Doc, r: Resource, claim: Option<Run>, before: Doc, edited: bool) {
    && Stored(doc)
    && (claim.None? ==> NoJournal(doc))
    && (claim.Some? ==>
          && (NoJournal(doc) || (OwnJournal(doc, claim.value.id)
              && (r == Monitor ==> MONITOR_TARGET in claim.value.targets)))
          && Stored(before)
          && (!edited ==> WayBack(doc, claim.value.id, before)))
  }

  ghost predicate ConfigInv(config: Doc, claim: Option<Run>) {
    && (claim.None? ==> Unclaimed(config))
    && (claim.Some? ==> ClaimedBy(config, claim.value) && ProbeOwner !in config.ann)
    && Get(config.ann, ProbeOwner) != Text("")
  }

  /** A marked monitor names the holder of the screenshot lock. */
  ghost predicate MarkInv(config: Doc, monitor: Doc) {
    ProbeOwner in monitor.ann ==> Get(config.ann, ProbeOwner) == monitor.ann[ProbeOwner]
  }

  ghost predicate DocsInv(s: State) {
    && (forall r: Resource :: DocInv(s.docs.At(r), r, s.claim, s.snap.At(r), r in s.edited))
    && ConfigInv(s.docs.config, s.claim)
    && MarkInv(s.docs.config, s.docs.monitor)
  }

  // ----- The programs -----

  ghost predicate HeldBy(claim: Option<Run>, run: Run) {
    claim.Some? && claim.value == run.(jobId := None)
  }

  ghost predicate Suffix(todo: seq<Op>, plan: seq<Op>) {
    |todo| <= |plan| && todo == plan[|plan| - |todo|..]
  }

  ghost predicate ModeInv(c: Controller, run: Run, docs: Docs, claim: Option<Run>) {
    match c.mode
    case Starting =>
      if c.todo != [] && c.todo[0].Claim? then c.todo[0] == Claim(run) && run.jobId.None? && PlanOk(run, c.todo[1..])
          && claim.None?
      else PlanOk(run, c.todo) && HeldBy(claim, run)
    case Verifying => claim.None? || HeldBy(claim, run)
    case Resting => claim.None? || HeldBy(claim, run)
    case Recovering =>
      && (claim.None? || HeldBy(claim, run))
      && Suffix(c.todo, RecoveryPlan(run))
      && (!c.errors ==> forall r: Resource :: NoJournal(docs.At(r)) || Restore(r) in c.todo)
  }

  predicate RunName(name: Name) {
    name in CLAIM || JournalName(name)
  }

  /** The controller's own annotations, which nobody else writes. */
  ghost predicate SameRunNames(doc: Doc, doc': Doc) {
    forall name | RunName(name) :: (name in doc.ann <==> name in doc'.ann) && Get(doc.ann, name) == Get(doc'.ann, name)
  }

  ghost predicate CtlInv(c: Controller, docs: Docs, claim: Option<Run>) {
    && (c.active.None? ==> c.mode == Resting && c.read.None?)
    && (c.active.Some? ==> ValidRunId(c.active.value.id) && ModeInv(c, c.active.value, docs, claim))
    && (c.read.Some? ==> Working(c) && ReadOf(c.read.value, docs.At(Target(c.todo[0])))
                         && SameRunNames(c.read.value, docs.At(Target(c.todo[0]))))
  }

  ghost predicate RunnerOk(docs: Docs, o: string, runner: Runner) {
    o != "" && ReadOf(runner.before, docs.monitor) &&
    match runner.phase
    case Locking(read) => ReadOf(read, docs.config)
    case Holding => Get(docs.config.ann, ProbeOwner) == Text(o)
    case Undoing(read) =>
      ReadOf(read, docs.monitor)
      && (Get(docs.monitor.ann, ProbeOwner) == Text(o) ==> Get(read.ann, ProbeOwner) == Text(o))
    case Undone => Get(docs.monitor.ann, ProbeOwner) != Text(o)
    case Unlocking(read) => ReadOf(read, docs.config) && Get(docs.monitor.ann, ProbeOwner) != Text(o)
    case _ => true
  }

  ghost predicate RunnersInv(docs: Docs, runners: map<string, Runner>) {
    forall o | o in runners :: RunnerOk(docs, o, runners[o])
  }

  ghost predicate Inv(s: State) {
    DocsInv(s) && CtlInv(s.ctl, s.docs, s.claim) && RunnersInv(s.docs, s.runners)
  }

  /** Where every run begins: no Lab annotation anywhere and nobody at work. */
  ghost predicate Init(s: State) {
    && (forall r: Resource :: Stored(s.docs.At(r)) && forall name | LabName(name) :: name !in s.docs.At(r).ann)
    && s.ctl == RESTARTED && s.runners == map[] && s.claim == None
  }

  lemma InitInv(s: State)
    requires Init(s)
    ensures Inv(s)
  {
    assert Stored(s.docs.At(Config)) && Stored(s.docs.At(Monitor));
  }

  // ----- Landed controller writes, one document at a time -----

  lemma ShapeGrows(baseline: map<Name, Json>, applied: map<Name, Json>, fields: map<Name, Json>,
          updates: map<Name, Json>)
    requires JournalShape(baseline, applied) && NullFreeMembers(fields) && Flat(updates)
    ensures JournalShape(ExtendBaseline(baseline, fields, updates), applied + updates)
  {
  }

  lemma EntriesDecode(owner: string, baseline: map<Name, Json>, applied: map<Name, Json>)
    ensures var entries := JournalEntries(owner, baseline, applied);
            && entries.Keys == JOURNAL.Keys && Flat(entries) && entries[FieldOwner] == Text(owner)
            && Decodable(entries, FieldBaseline) && Decodable(entries, FieldApplied)
            && Decoded(entries, FieldBaseline) == baseline && Decoded(entries, FieldApplied) == applied
  {
  }

  /** The journal that a claim writes over no journal or the run's own. */
  lemma ClaimedShape(doc: Doc, owner: string, updates: map<Name, Json>)
    requires owner != "" && Stored(doc) && Flat(updates) && (NoJournal(doc) || OwnJournal(doc, owner))
    ensures var overlay := ClaimedEntries(doc, owner, updates);
            && overlay.Keys == JOURNAL.Keys && Flat(overlay) && overlay[FieldOwner] == Text(owner)
            && Decodable(overlay, FieldBaseline) && Decodable(overlay, FieldApplied)
            && JournalShape(Decoded(overlay, FieldBaseline), Decoded(overlay, FieldApplied))
  {
    var mine := Get(doc.ann, FieldOwner) == Text(owner);
    var baseline := if mine then Decoded(doc.ann, FieldBaseline) else map[];
    var applied := if mine then Decoded(doc.ann, FieldApplied) else map[];
    ShapeGrows(baseline, applied, doc.fields, updates);
    EntriesDecode(owner, ExtendBaseline(baseline, doc.fields, updates), applied + updates);
  }

  lemma ClaimVerdict(doc: Doc, r: Resource, owner: string, updates: map<Name, Json>)
    requires owner != "" && (NoJournal(doc) || OwnJournal(doc, owner))
    requires r == Config ==> Get(doc.ann, RunOwner) == Text(owner)
    ensures ClaimFields(doc, r, owner, updates) == Write(ClaimPatch(doc, owner, updates))
  {
  }

  /** A claim on a document with no journal or the run's own leaves the run's own. */
  lemma OwnClaim(doc: Doc, r: Resource, owner: string, updates: map<Name, Json>)
    requires owner != "" && Stored(doc) && Flat(updates) && (NoJournal(doc) || OwnJournal(doc, owner))
    requires r == Config ==> Get(doc.ann, RunOwner) == Text(owner)
    ensures ClaimFields(doc, r, owner, updates) == Write(ClaimPatch(doc, owner, updates))
    ensures var after := Carry(doc, ClaimFields(doc, r, owner, updates));
            Stored(after) && OwnJournal(after, owner) && SameForeignAnnotations(doc, after)
  {
    ClaimVerdict(doc, r, owner, updates);
    OwnPatch(doc, owner, updates);
  }

  lemma OwnPatch(doc: Doc, owner: string, updates: map<Name, Json>)
    requires owner != "" && Stored(doc) && Flat(updates) && (NoJournal(doc) || OwnJournal(doc, owner))
    ensures var after := Apply(doc, ClaimPatch(doc, owner, updates));
            Stored(after) && OwnJournal(after, owner) && SameForeignAnnotations(doc, after)
  {
    ClaimedShape(doc, owner, updates);
    OverlaidPatch(doc, ClaimedEntries(doc, owner, updates), owner, updates);
  }

  lemma OverlaidPatch(doc: Doc, overlay: map<Name, Json>, owner: string, updates: map<Name, Json>)
    requires Stored(doc) && Flat(updates) && Flat(overlay)
    requires overlay.Keys == JOURNAL.Keys && overlay[FieldOwner] == Text(owner)
    requires Decodable(overlay, FieldBaseline) && Decodable(overlay, FieldApplied)
    requires JournalShape(Decoded(overlay, FieldBaseline), Decoded(overlay, FieldApplied))
    ensures var after := Apply(doc, Patch(doc.version, doc.ann + overlay, updates));
            Stored(after) && OwnJournal(after, owner) && SameForeignAnnotations(doc, after)
  {
    PatchedReads(doc, overlay, updates);
    OverlaidJournal(doc, Apply(doc, Patch(doc.version, doc.ann + overlay, updates)), overlay, owner);
  }

  lemma OverlaidJournal(doc: Doc, after: Doc, overlay: map<Name, Json>, owner: string)
    requires overlay.Keys == JOURNAL.Keys && overlay[FieldOwner] == Text(owner)
    requires Decodable(overlay, FieldBaseline) && Decodable(overlay, FieldApplied)
    requires JournalShape(Decoded(overlay, FieldBaseline), Decoded(overlay, FieldApplied))
    requires forall name :: Get(after.ann, name) == if name in overlay then overlay[name] else Get(doc.ann, name)
    ensures OwnJournal(after, owner) && SameForeignAnnotations(doc, after)
  {
    assert Get(after.ann, FieldOwner) == overlay[FieldOwner];
    assert Get(after.ann, FieldBaseline) == overlay[FieldBaseline];
    assert Get(after.ann, FieldApplied) == overlay[FieldApplied];
  }

  lemma FieldsLand(doc: Doc, r: Resource, run: Run, updates: map<Name, Json>, before: Doc, edited: bool)
    requires DocInv(doc, r, Some(run), before, edited) && Flat(updates) && ValidRunId(run.id)
    requires r == Config ==> Get(doc.ann, RunOwner) == Text(run.id)
    requires r == Monitor ==> MONITOR_TARGET in run.targets
    ensures ClaimFields(doc, r, run.id, updates).Write?
    ensures var after := Carry(doc, ClaimFields(doc, r, run.id, updates));
            DocInv(after, r, Some(run), before, edited) && SameForeignAnnotations(doc, after)
  {
    OwnClaim(doc, r, run.id, updates);
    if !edited {
      ClaimKeepsWayBack(doc, r, run.id, updates, before.fields);
    }
  }

  /** A written restore is the restoring patch, whatever the fields are. */
  lemma RestoreIsItsPatch(doc: Doc, r: Resource, owner: string)
    requires RestoreFields(doc, r, owner).Write?
    ensures RestoreFields(doc, r, owner).patch == RestorePatch(doc)
  {
  }

  lemma OwnRestore(doc: Doc, r: Resource, owner: string)
    requires Stored(doc) && RestoreFields(doc, r, owner).Write?
    ensures var after := Carry(doc, RestoreFields(doc, r, owner));
            Stored(after) && NoJournal(after) && SameForeignAnnotations(doc, after)
  {
    RestoreIsItsPatch(doc, r, owner);
    PatchedByRestore(doc);
  }

  lemma PatchedByRestore(doc: Doc)
    requires Stored(doc)
    ensures var after := Apply(doc, RestorePatch(doc));
            Stored(after) && NoJournal(after) && SameForeignAnnotations(doc, after)
  {
    RestoredAnnotations(doc.ann);
    MergeMembersNullFree(doc.fields, RestorePatch(doc).fields);
    assert Apply(doc, RestorePatch(doc)).ann == MergeMembers(doc.ann, doc.ann + JOURNAL);
  }

  lemma RestoreLands(doc: Doc, r: Resource, run: Run, before: Doc, edited: bool)
    requires DocInv(doc, r, Some(run), before, edited) && ValidRunId(run.id)
    requires RestoreFields(doc, r, run.id).Write?
    ensures var after := Carry(doc, RestoreFields(doc, r, run.id));
            DocInv(after, r, Some(run), before, edited) && NoJournal(after) && SameForeignAnnotations(doc, after)
  {
    OwnRestore(doc, r, run.id);
    if !edited {
      RestoreTakesWayBack(doc, r, run.id, before.fields);
    }
  }

  /** What the ConfigMap reads as after one of the controller's annotation writes. */
  lemma ClaimLands(doc: Doc, run: Run)
    requires Stored(doc) && ClaimRun(doc, run).Write? && ValidRunId(run.id) && run.jobId.None?
    requires ConfigInv(doc, None) && NoJournal(doc)
    ensures var after := Carry(doc, ClaimRun(doc, run));
            && Stored(after) && after.fields == doc.fields && ConfigInv(after, Some(run)) && NoJournal(after)
            && forall name | !LabName(name) || name == ProbeOwner :: Get(after.ann, name) == Get(doc.ann, name)
  {
    AnnotationPatchEffect(doc, ClaimRun(doc, run).patch, ClaimEntries(run));
    ClaimedConfig(doc, Carry(doc, ClaimRun(doc, run)), run);
  }

  lemma ClaimedConfig(doc: Doc, after: Doc, run: Run)
    requires Stored(after) && ValidRunId(run.id) && run.jobId.None?
    requires Unclaimed(doc) && NoJournal(doc) && ProbeOwner !in doc.ann
    requires forall name :: Get(after.ann, name) == if name in ClaimEntries(run) then ClaimEntries(run)[name]
            else Get(doc.ann, name)
    ensures ConfigInv(after, Some(run)) && NoJournal(after)
  {
    var entries := ClaimEntries(run);
    forall name | JournalName(name) || name == ProbeOwner || name == RunJobId ensures name !in after.ann {
      assert name !in entries && name !in doc.ann;
      assert Get(after.ann, name) == Null;
    }
  }

  lemma JobLands(doc: Doc, run: Run, jobId: int)
    requires Stored(doc) && ConfigInv(doc, Some(run))
    ensures var verdict := PersistJobId(doc, run.id, jobId);
            && verdict.Write? && verdict.patch.version == doc.version
            && var after := Carry(doc, verdict);
            && Stored(after) && after.fields == doc.fields && ConfigInv(after, Some(run))
            && Get(after.ann, RunJobId) == Encoded(Number(jobId))
            && forall name | name != RunJobId :: Get(after.ann, name) == Get(doc.ann, name)
  {
    var overlay := map[RunJobId := Encoded(Number(jobId))];
    assert Get(doc.ann, RunOwner) == ClaimEntries(run)[RunOwner];
    var patch := PersistJobId(doc, run.id, jobId).patch;
    assert patch.ann == doc.ann + overlay;
    AnnotationPatchEffect(doc, patch, overlay);
    JobConfig(doc, Apply(doc, patch), run);
  }

  lemma JobConfig(doc: Doc, after: Doc, run: Run)
    requires Stored(after) && ConfigInv(doc, Some(run)) && IntegerText(Get(after.ann, RunJobId))
    requires forall name | name != RunJobId :: Get(after.ann, name) == Get(doc.ann, name)
    ensures ConfigInv(after, Some(run))
  {
    assert Get(after.ann, ProbeOwner) == Get(doc.ann, ProbeOwner);
  }

  lemma ClearLands(doc: Doc, run: Run)
    requires Stored(doc) && ConfigInv(doc, Some(run))
    ensures var verdict := ClearRunClaim(doc, run.id);
            && verdict.Write? && verdict.patch.version == doc.version
            && var after := Carry(doc, verdict);
            && Stored(after) && after.fields == doc.fields && ConfigInv(after, None)
            && forall name | name !in CLAIM :: Get(after.ann, name) == Get(doc.ann, name)
  {
    assert Get(doc.ann, RunOwner) == ClaimEntries(run)[RunOwner];
    var patch := ClearRunClaim(doc, run.id).patch;
    AnnotationPatchEffect(doc, patch, CLAIM);
    ClearedConfig(doc, Apply(doc, patch), run);
  }

  lemma ClearedConfig(doc: Doc, after: Doc, run: Run)
    requires Stored(after) && ConfigInv(doc, Some(run))
    requires forall name :: Get(after.ann, name) == if name in CLAIM then Null else Get(doc.ann, name)
    ensures ConfigInv(after, None)
  {
    forall name | name in CLAIM ensures name !in after.ann {
      assert Get(after.ann, name) == Null;
    }
    assert Get(after.ann, ProbeOwner) == Get(doc.ann, ProbeOwner);
  }

  // ----- Frames: what one program's write means to the others -----

  /** Documents only move forward, and the controller's names stay as they are. */
  ghost predicate ControllerFrame(docs: Docs, docs': Docs) {
    forall r: Resource :: ReadOf(docs.At(r), docs'.At(r)) && SameRunNames(docs.At(r), docs'.At(r))
  }

  lemma ControllerUndisturbed(c: Controller, docs: Docs, docs': Docs, claim: Option<Run>)
    requires CtlInv(c, docs, claim) && ControllerFrame(docs, docs')
    ensures CtlInv(c, docs', claim)
  {
    forall r: Resource ensures NoJournal(docs.At(r)) ==> NoJournal(docs'.At(r)) {
      assert SameRunNames(docs.At(r), docs'.At(r));
    }
    if c.read.Some? {
      var r := Target(c.todo[0]);
      assert ReadOf(docs.At(r), docs'.At(r)) && SameRunNames(docs.At(r), docs'.At(r));
    }
  }

  ghost predicate RunnerFrame(docs: Docs, docs': Docs) {
    && ReadOf(docs.config, docs'.config) && ReadOf(docs.monitor, docs'.monitor)
    && Get(docs.config.ann, ProbeOwner) == Get(docs'.config.ann, ProbeOwner)
    && Get(docs.monitor.ann, ProbeOwner) == Get(docs'.monitor.ann, ProbeOwner)
  }

  lemma RunnersUndisturbed(docs: Docs, docs': Docs, runners: map<string, Runner>)
    requires RunnersInv(docs, runners) && RunnerFrame(docs, docs')
    ensures RunnersInv(docs', runners)
  {
    forall o | o in runners ensures RunnerOk(docs', o, runners[o]) {
      assert RunnerOk(docs, o, runners[o]);
    }
  }

  // ----- Controller bookkeeping without a write -----

  lemma RaiseInv(c: Controller, docs: Docs, claim: Option<Run>)
    requires CtlInv(c, docs, claim) && Working(c)
    requires claim.Some? ==> forall r: Resource | r == Monitor && MONITOR_TARGET !in claim.value.targets ::
            NoJournal(docs.At(r))
    requires claim.None? ==> forall r: Resource :: NoJournal(docs.At(r))
    ensures CtlInv(Raise(c), docs, claim)
  {
    var run := c.active.value;
    if c.mode == Starting && !c.todo[0].Claim? {
      RecoveryBegins(run, docs, claim);
    }
  }

  /** At the start of a recovery every document that may carry a journal is on the list. */
  lemma RecoveryBegins(run: Run, docs: Docs, claim: Option<Run>)
    requires ValidRunId(run.id) && (claim.None? || HeldBy(claim, run))
    requires claim.Some? ==> forall r: Resource | r == Monitor && MONITOR_TARGET !in claim.value.targets ::
            NoJournal(docs.At(r))
    requires claim.None? ==> forall r: Resource :: NoJournal(docs.At(r))
    ensures forall r: Resource :: NoJournal(docs.At(r)) || Restore(r) in RecoveryPlan(run)
  {
    var plan := RecoveryPlan(run);
    var n := if MONITOR_TARGET in run.targets then 1 else 0;
    assert plan[n] == Restore(Config) && plan[n + 1] == Restore(Service);
    forall r: Resource ensures NoJournal(docs.At(r)) || Restore(r) in plan {
      if r == Monitor && MONITOR_TARGET in run.targets {
        assert plan[0] == Restore(Monitor);
      }
    }
  }

  lemma PlanShrinks(run: Run, todo: seq<Op>)
    requires PlanOk(run, todo) && todo != []
    ensures PlanOk(run, todo[1..]) && (todo[1..] != [] ==> !todo[1..][0].Claim?)
  {
    assert forall i | 0 <= i < |todo[1..]| :: todo[1..][i] == todo[i + 1];
  }

  lemma SuffixShrinks(todo: seq<Op>, plan: seq<Op>)
    requires Suffix(todo, plan) && todo != []
    ensures Suffix(todo[1..], plan)
    ensures forall op | op in todo && op != todo[0] :: op in todo[1..]
  {
    assert todo[1..] == plan[|plan| - |todo[1..]|..];
    assert todo == [todo[0]] + todo[1..];
  }

  lemma AdvanceInv(c: Controller, docs: Docs, claim: Option<Run>)
    requires CtlInv(c, docs, claim) && Working(c) && !c.todo[0].Claim?
    requires c.todo[0].Restore? ==> NoJournal(docs.At(c.todo[0].r))
    ensures CtlInv(Advance(c), docs, claim)
  {
    var run := c.active.value;
    if c.mode == Starting {
      PlanShrinks(run, c.todo);
    } else {
      SuffixShrinks(c.todo, RecoveryPlan(run));
    }
  }
}
