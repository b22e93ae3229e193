/** Recovery over other people's edits: what it puts back, what it leaves, and when it succeeds. */
module LabEdits {
  import opened Json
  import opened VersionedStore
  import opened FieldJournal
  import opened RunClaim
  import opened LabProtocol
  import opened LabInvariant
  import opened LabSteps
  import opened LabTheorems
  import opened LabRecovery
  import opened Wrappers

  /** Every journaled field still has the value that the run gave it. */
  predicate Intact(doc: Doc) {
    Untouched(doc.fields, Decoded(doc.ann, FieldApplied))
  }

  /** The journaled fields have their first-seen values again, everything else is as it was, edits included, and
      the journal is gone. */
  ghost predicate PutBack(doc: Doc, after: Doc) {
    var baseline, applied := Decoded(doc.ann, FieldBaseline), Decoded(doc.ann, FieldApplied);
    && NoJournal(after)
    && (forall key :: Get(after.fields, key) == if key in applied then Get(baseline, key) else Get(doc.fields, key))
    && (forall name | !LabName(name) :: Get(after.ann, name) == Get(doc.ann, name))
  }

  // ----- One restore -----

  lemma InstalledFields(fields: map<Name, Json>, baseline: map<Name, Json>, applied: map<Name, Json>, key: Name)
    requires JournalShape(baseline, applied) && Untouched(fields, applied) && NullFreeMembers(fields)
    ensures var restore := map name | name in applied :: Get(baseline, name);
            Get(MergeMembers(fields, restore), key) == if key in applied then Get(baseline, key) else Get(fields, key)
  {
    MergeGet(fields, map name | name in applied :: Get(baseline, name), key);
    if key in applied {
      MergeInstallsExactly(Get(fields, key), baseline[key]);
    }
  }

  lemma PatchPutsBack(doc: Doc)
    requires Stored(doc) && Intact(doc)
    requires JournalShape(Decoded(doc.ann, FieldBaseline), Decoded(doc.ann, FieldApplied))
    ensures PutBack(doc, Apply(doc, RestorePatch(doc)))
  {
    PatchedByRestore(doc);
    var baseline, applied := Decoded(doc.ann, FieldBaseline), Decoded(doc.ann, FieldApplied);
    var after := Apply(doc, RestorePatch(doc));
    forall key
      ensures Get(after.fields, key) == if key in applied then Get(baseline, key) else Get(doc.fields, key)
    {
      InstalledFields(doc.fields, baseline, applied, key);
    }
  }

  /** What the run's own restore decides, whatever was edited. */
  lemma RestoreVerdict(doc: Doc, r: Resource, owner: string)
    requires owner != "" && (NoJournal(doc) || OwnJournal(doc, owner))
    requires r == Config ==> Get(doc.ann, RunOwner) == Text(owner)
    ensures RestoreFields(doc, r, owner)
         == if NoJournal(doc) then Leave else if Intact(doc) then Write(RestorePatch(doc)) else Refuse
  {
  }

  lemma NothingToPutBack(doc: Doc)
    requires NoJournal(doc)
    ensures Intact(doc) && PutBack(doc, doc)
  {
  }

  lemma RestoreFinish(s: State, r: Resource)
    requires Working(s.ctl) && s.ctl.todo[0] == Restore(r) && s.ctl.read == Some(s.docs.At(r))
    requires var verdict := RestoreFields(s.docs.At(r), r, s.ctl.active.value.id);
             verdict.Write? ==> verdict.patch.version == s.docs.At(r).version
    ensures var verdict := RestoreFields(s.docs.At(r), r, s.ctl.active.value.id);
            FinishStep(s, Acknowledged)
            == s.(docs := s.docs.With(r, Carry(s.docs.At(r), verdict)),
                  ctl := if verdict.Refuse? then Raise(s.ctl) else Advance(s.ctl))
  {
    SameDocs(s, r);
  }

  lemma RestoredOver(doc: Doc, r: Resource, owner: string)
    requires owner != "" && Stored(doc) && (NoJournal(doc) || OwnJournal(doc, owner))
    requires r == Config ==> Get(doc.ann, RunOwner) == Text(owner)
    ensures var verdict := RestoreFields(doc, r, owner);
            && (verdict.Refuse? <==> !Intact(doc))
            && (verdict.Write? ==> verdict.patch.version == doc.version)
            && (Intact(doc) ==> PutBack(doc, Carry(doc, verdict)))
  {
    RestoreVerdict(doc, r, owner);
    if NoJournal(doc) {
      NothingToPutBack(doc);
    } else if Intact(doc) {
      PatchPutsBack(doc);
    }
  }

  /** A delivered restore of a resource, whatever was edited since the claim: it is refused exactly when a journaled
      field no longer has the value that the run gave it, and then nothing is written; otherwise the resource is put
      back. No other resource changes. */
  lemma EditedRestore(s: State, r: Resource)
    requires Inv(s) && s.claim.Some? && s.ctl.mode == Recovering && Working(s.ctl) && s.ctl.todo[0] == Restore(r)
    requires s.ctl.read == Some(s.docs.At(r))
    ensures var doc, s' := s.docs.At(r), FinishStep(s, Acknowledged);
            && s'.claim == s.claim && s'.docs == s.docs.With(r, s'.docs.At(r))
            && (if Intact(doc) then s'.ctl == Advance(s.ctl) && PutBack(doc, s'.docs.At(r))
                else s'.ctl == Raise(s.ctl) && s'.docs == s.docs)
  {
    ClaimIsOnConfig(s);
    assert DocInv(s.docs.At(r), r, s.claim, s.snap.At(r), r in s.edited);
    RestoredOver(s.docs.At(r), r, s.ctl.active.value.id);
    RestoreFinish(s, r);
    SameDocs(s, r);
  }

  // ----- One sweep of the plan -----

  ghost predicate Sweeping(s: State) {
    && Inv(s) && s.ctl.active.Some? && s.ctl.mode == Recovering && s.ctl.read.None? && s.claim.Some?
    && s.ctl.todo != []
  }

  /** As before, as far as the clear is concerned. */
  ghost predicate SameButClaim(doc: Doc, after: Doc) {
    doc.fields == after.fields && forall name | name !in CLAIM :: Get(after.ann, name) == Get(doc.ann, name)
  }

  /** What the rest of a sweep, with its clear or without, does to a document that it lists or does not list. */
  ghost predicate Handled(doc: Doc, after: Doc, listed: bool, cleared: bool) {
    if listed && Intact(doc) then PutBack(doc, after)
    else if listed || !cleared then after == doc
    else SameButClaim(doc, after)
  }

  lemma ReadOne(s: State)
    requires Sweeping(s) && !s.ctl.todo[0].Clear?
    ensures Working(s.ctl)
    ensures Next(s, Read) == s.(ctl := s.ctl.(read := Some(s.docs.At(Target(s.ctl.todo[0])))))
    ensures s.ctl.todo[0].Restore? || s.ctl.todo[0].Notify?
  {
    NoFieldsInRecovery(s.ctl);
  }

  lemma FinishOne(s: State, read: Doc)
    requires Working(s.ctl)
    ensures var s1 := s.(ctl := s.ctl.(read := Some(read)));
            && Next(s1, Finish(Acknowledged)) == FinishStep(s1, Acknowledged)
            && Advance(s1.ctl) == Advance(s.ctl)
            && (s.ctl.mode == Recovering ==> Raise(s1.ctl) == Raise(s.ctl))
  {
  }

  lemma SweepInv(s: State)
    requires Inv(s)
    ensures Inv(Next(s, Read)) && Inv(Next(Next(s, Read), Finish(Acknowledged)))
    ensures Inv(Next(Next(Next(s, Read), Finish(Acknowledged)), End))
  {
    ExecInv(s, []);
    NextInv(s, Read);
    NextInv(Next(s, Read), Finish(Acknowledged));
    NextInv(Next(Next(s, Read), Finish(Acknowledged)), End);
  }

  /** One restore of the sweep. */
  ghost predicate RestoredOne(s: State, s': State, r: Resource)
    requires s.ctl.todo != [] && s.ctl.active.Some?
  {
    && s'.claim == s.claim && s'.docs == s.docs.With(r, s'.docs.At(r))
    && (if Intact(s.docs.At(r)) then s'.ctl == Advance(s.ctl) && PutBack(s.docs.At(r), s'.docs.At(r))
        else s'.ctl == Raise(s.ctl) && s'.docs == s.docs)
  }

  lemma RestoreOne(s: State)
    requires Sweeping(s) && s.ctl.todo[0].Restore?
    ensures RestoredOne(s, Next(Next(s, Read), Finish(Acknowledged)), s.ctl.todo[0].r)
  {
    var r := s.ctl.todo[0].r;
    ReadOne(s);
    SweepInv(s);
    FinishOne(s, s.docs.At(r));
    EditedRestore(Next(s, Read), r);
  }

  lemma NotifyOne(s: State)
    requires Sweeping(s) && s.ctl.todo[0].Notify?
    ensures Next(Next(s, Read), Finish(Acknowledged)) == s.(ctl := Advance(s.ctl))
  {
    ReadOne(s);
    FinishOne(s, s.docs.config);
  }

  /** After an error the claim stays. */
  lemma ClearSkipped(s: State)
    requires s.ctl.active.Some? && s.ctl.mode == Recovering && s.ctl.todo == [Clear] && s.ctl.errors
    ensures Next(Next(Next(s, Read), Finish(Acknowledged)), End)
         == s.(ctl := Controller(s.ctl.active, Resting, [], None, false))
  {
  }

  lemma ClearLandsLast(s: State)
    requires Inv(s) && s.claim.Some? && s.ctl.mode == Recovering && Working(s.ctl) && s.ctl.todo == [Clear]
    requires s.ctl.read == Some(s.docs.config)
    ensures Lands(s, Acknowledged)
    ensures var s' := FinishStep(s, Acknowledged); s'.claim.None? && s'.ctl == Advance(s.ctl)
  {
    ClaimIsOnConfig(s);
    FinishLanded(s, Acknowledged);
  }

  lemma ClearReads(s: State)
    requires s.ctl.active.Some? && s.ctl.mode == Recovering && s.ctl.todo == [Clear] && !s.ctl.errors
    requires s.ctl.read.None?
    ensures Next(s, Read) == s.(ctl := s.ctl.(read := Some(s.docs.config)))
    ensures Working(Next(s, Read).ctl)
  {
  }

  /** The landed clear leaves everything but the claim. */
  lemma ClearLeaves(s: State)
    requires Inv(s) && s.claim.Some? && Working(s.ctl) && s.ctl.read.Some?
    requires FinishStep(s, Acknowledged).claim.None?
    ensures forall r: Resource :: SameButClaim(s.docs.At(r), FinishStep(s, Acknowledged).docs.At(r))
  {
    ClearLanded(s, Acknowledged);
    ClearFrame(s);
  }

  lemma ClearOne(s: State)
    requires Inv(s) && Inv(Next(s, Read)) && s.claim.Some?
    requires s.ctl.active.Some? && s.ctl.mode == Recovering && s.ctl.read.None?
    requires s.ctl.todo == [Clear] && !s.ctl.errors
    ensures var s' := Next(Next(s, Read), Finish(Acknowledged));
            && s'.claim.None? && s'.ctl == Advance(s.ctl)
            && forall r: Resource :: SameButClaim(s.docs.At(r), s'.docs.At(r))
  {
    ClearReads(s);
    FinishOne(s, s.docs.config);
    ClearLandsLast(Next(s, Read));
    ClearLeaves(Next(s, Read));
  }

  lemma EndsWell(s: State, c: Controller)
    requires c.active.Some? && c.mode == Recovering && c.todo == [Clear] && !c.errors && s.ctl == Advance(c)
    ensures Next(s, End) == s.(ctl := RESTARTED)
  {
    assert [Clear][1..] == [];
  }

  lemma PlanListsOnce(run: Run)
    ensures var plan := RecoveryPlan(run); forall i, j | 0 <= i < j < |plan| :: plan[i] != plan[j]
  {
    var rest := [Restore(Config), Restore(Service), Notify, Clear];
    assert RecoveryPlan(run) == if MONITOR_TARGET in run.targets then [Restore(Monitor)] + rest else rest;
  }

  /** The rest of a plan does not list an operation twice. */
  lemma ListedOnce(todo: seq<Op>, run: Run)
    requires todo != [] && Suffix(todo, RecoveryPlan(run))
    ensures todo[0] !in todo[1..]
    ensures forall op :: op in todo <==> op == todo[0] || op in todo[1..]
  {
    PlanListsOnce(run);
    var plan := RecoveryPlan(run);
    assert forall i | 0 <= i < |todo| :: todo[i] == plan[|plan| - |todo| + i];
    assert todo == [todo[0]] + todo[1..];
  }

  lemma HandledLater(doc: Doc, mid: Doc, after: Doc)
    requires Stored(after) && SameButClaim(mid, after) && PutBack(doc, mid)
    ensures PutBack(doc, after)
  {
    forall name | JournalName(name) ensures name !in after.ann {
      assert Get(after.ann, name) == Get(mid.ann, name);
    }
  }

  /** One document through the first operation, its own restore or another one, and through the rest. */
  lemma HandledJoins(doc: Doc, mid: Doc, after: Doc, first: bool, later: bool, cleared: bool)
    requires Stored(after) && Handled(mid, after, later, cleared)
    requires if first then !later && (if Intact(doc) then PutBack(doc, mid) else mid == doc && !cleared) else mid == doc
    ensures Handled(doc, after, first || later, cleared)
  {
    if first && Intact(doc) && cleared {
      HandledLater(doc, mid, after);
    }
  }

  /** Whether the rest of the sweep ends with the claim cleared. */
  ghost predicate EndsCleared(s: State) {
    !s.ctl.errors && forall r: Resource | Restore(r) in s.ctl.todo :: Intact(s.docs.At(r))
  }

  ghost predicate SweptTo(s: State, t: State) {
    && (forall r: Resource :: Stored(t.docs.At(r)))
    && (forall r: Resource :: Handled(s.docs.At(r), t.docs.At(r), Restore(r) in s.ctl.todo, EndsCleared(s)))
    && (if EndsCleared(s) then t.ctl == RESTARTED && t.claim.None?
        else t.ctl == Controller(s.ctl.active, Resting, [], None, false) && t.claim == s.claim)
  }

  lemma StoredDocs(s: State)
    requires Inv(s)
    ensures forall r: Resource :: Stored(s.docs.At(r))
  {
    forall r: Resource ensures Stored(s.docs.At(r)) {
      assert DocInv(s.docs.At(r), r, s.claim, s.snap.At(r), r in s.edited);
    }
  }

  lemma SweepFails(s: State, t: State)
    requires s.ctl.todo == [Clear] && s.ctl.errors && t == s.(ctl := Controller(s.ctl.active, Resting, [], None, false))
    requires forall r: Resource :: Stored(t.docs.At(r))
    ensures SweptTo(s, t)
  {
  }

  lemma SweepSucceeds(s: State, s': State)
    requires s.ctl.todo == [Clear] && !s.ctl.errors && s'.claim.None?
    requires forall r: Resource :: Stored(s'.docs.At(r)) && SameButClaim(s.docs.At(r), s'.docs.At(r))
    ensures SweptTo(s, s'.(ctl := RESTARTED))
  {
  }

  lemma SweepLast(s: State)
    requires Sweeping(s) && s.ctl.todo == [Clear]
    ensures SweptTo(s, Next(Next(Next(s, Read), Finish(Acknowledged)), End))
  {
    var s' := Next(Next(s, Read), Finish(Acknowledged));
    SweepInv(s);
    StoredDocs(s');
    if s.ctl.errors {
      ClearSkipped(s);
      StoredDocs(s);
      SweepFails(s, Next(s', End));
    } else {
      ClearOne(s);
      EndsWell(s', s.ctl);
      SweepSucceeds(s, s');
    }
  }

  /** The way a sweep ends does not depend on how many of its restores are behind it. */
  lemma ClearedJoins(s: State, s': State)
    requires s.ctl.active.Some? && s.ctl.mode == Recovering && s.ctl.todo != [] && s.ctl.todo[0].Restore?
    requires RestoredOne(s, s', s.ctl.todo[0].r) && s.ctl.todo[0] !in s.ctl.todo[1..]
    requires forall op :: op in s.ctl.todo <==> op == s.ctl.todo[0] || op in s.ctl.todo[1..]
    ensures s'.ctl.todo == s.ctl.todo[1..] && s'.ctl.active == s.ctl.active
    ensures forall r: Resource | r != s.ctl.todo[0].r :: s'.docs.At(r) == s.docs.At(r)
    ensures EndsCleared(s') <==> EndsCleared(s)
  {
    var first := s.ctl.todo[0].r;
    forall r: Resource | r != first ensures s'.docs.At(r) == s.docs.At(r) {
      assert s'.docs == s.docs.With(first, s'.docs.At(first));
    }
    if EndsCleared(s') {
      assert forall r: Resource | Restore(r) in s.ctl.todo && r != first :: Restore(r) in s'.ctl.todo;
    }
    if EndsCleared(s) {
      assert forall r: Resource | Restore(r) in s'.ctl.todo :: Restore(r) in s.ctl.todo && r != first;
    }
  }

  /** A restore and the rest of the sweep after it. */
  lemma SweepJoins(s: State, s': State, t: State)
    requires s.ctl.active.Some? && s.ctl.mode == Recovering && s.ctl.todo != [] && s.ctl.todo[0].Restore?
    requires Suffix(s.ctl.todo, RecoveryPlan(s.ctl.active.value))
    requires RestoredOne(s, s', s.ctl.todo[0].r) && SweptTo(s', t)
    ensures SweptTo(s, t)
  {
    var todo, first := s.ctl.todo, s.ctl.todo[0].r;
    ListedOnce(todo, s.ctl.active.value);
    ClearedJoins(s, s');
    forall r: Resource ensures Handled(s.docs.At(r), t.docs.At(r), Restore(r) in todo, EndsCleared(s)) {
      assert Handled(s'.docs.At(r), t.docs.At(r), Restore(r) in todo[1..], EndsCleared(s'));
      assert Stored(t.docs.At(r)) && (r == first <==> Restore(r) == todo[0]);
      HandledJoins(s.docs.At(r), s'.docs.At(r), t.docs.At(r), r == first, Restore(r) in todo[1..], EndsCleared(s));
    }
  }

  lemma NotifyJoins(s: State, t: State)
    requires s.ctl.todo != [] && s.ctl.todo[0].Notify? && SweptTo(s.(ctl := Advance(s.ctl)), t)
    ensures SweptTo(s, t)
  {
    var todo := s.ctl.todo;
    assert todo == [Notify] + todo[1..];
    assert forall r: Resource :: Restore(r) in todo <==> Restore(r) in todo[1..];
  }

  /** The whole sweep, whatever was edited. */
  lemma {:induction false} SweepOver(s: State)
    requires Sweeping(s)
    ensures SweptTo(s, Exec(s, Sweep(s.ctl.todo)))
    decreases |s.ctl.todo|
  {
    var todo := s.ctl.todo;
    var s' := Next(Next(s, Read), Finish(Acknowledged));
    SweepUnfolds(s, todo);
    SweepInv(s);
    if todo[0].Clear? {
      NoFieldsInRecovery(s.ctl);
      SweepLast(s);
      assert Exec(s', [End]) == Exec(Next(s', End), []);
    } else {
      LastIsClear(s.ctl);
      if todo[0].Restore? {
        RestoreOne(s);
        SweepOver(s');
        SweepJoins(s, s', Exec(s', Sweep(s'.ctl.todo)));
      } else {
        ReadOne(s);
        NotifyOne(s);
        SweepOver(s');
        NotifyJoins(s, Exec(s', Sweep(s'.ctl.todo)));
      }
    }
  }

  // ----- Main result -----

  /** The documents a recovery lists, and those that cannot carry a journal. */
  lemma ListedOrClean(s: State, run: Run, r: Resource)
    requires DocsInv(s) && HeldBy(s.claim, run)
    ensures Restore(r) in RecoveryPlan(run) || NoJournal(s.docs.At(r))
  {
    JournalsReady(s);
    var plan, n := RecoveryPlan(run), if MONITOR_TARGET in run.targets then 1 else 0;
    assert plan[n] == Restore(Config) && plan[n + 1] == Restore(Service);
    assert n == 1 ==> plan[0] == Restore(Monitor);
  }

  lemma UnlistedKeeps(doc: Doc, after: Doc, cleared: bool)
    requires NoJournal(doc) && Stored(after) && Handled(doc, after, false, cleared)
    ensures Intact(doc) && PutBack(doc, after)
  {
    NothingToPutBack(doc);
    if cleared {
      HandledLater(doc, doc, after);
    }
  }

  /** What a recovery leaves of the documents: intact ones put back, the others exactly as they were. */
  lemma RecoveredDocs(s: State, run: Run, t: State)
    requires DocsInv(s) && HeldBy(s.claim, run) && s.ctl == Controller(Some(run), Recovering, RecoveryPlan(run), None,
            false)
    requires SweptTo(s, t)
    ensures EndsCleared(s) <==> forall r: Resource :: Intact(s.docs.At(r))
    ensures forall r: Resource ::
              if Intact(s.docs.At(r)) then PutBack(s.docs.At(r), t.docs.At(r)) else t.docs.At(r) == s.docs.At(r)
  {
    var plan := RecoveryPlan(run);
    forall r: Resource
      ensures Restore(r) in plan || Intact(s.docs.At(r))
      ensures if Intact(s.docs.At(r)) then PutBack(s.docs.At(r), t.docs.At(r)) else t.docs.At(r) == s.docs.At(r)
    {
      ListedOrClean(s, run, r);
      assert Stored(t.docs.At(r)) && Handled(s.docs.At(r), t.docs.At(r), Restore(r) in plan, EndsCleared(s));
      if Restore(r) !in plan {
        UnlistedKeeps(s.docs.At(r), t.docs.At(r), EndsCleared(s));
      }
    }
  }

  /** A document nobody edited since the claim is intact, and put back it is what it was when the claim landed. */
  lemma UneditedIsPutBack(doc: Doc, r: Resource, claim: Run, before: Doc, after: Doc)
    requires DocInv(doc, r, Some(claim), before, false) && claim.id != "" && Stored(after)
    ensures Intact(doc)
    ensures PutBack(doc, after) ==> RestoredTo(after, before)
  {
    var baseline, applied := Decoded(doc.ann, FieldBaseline), Decoded(doc.ann, FieldApplied);
    assert NoJournal(doc) || Journaled(doc, claim.id, before.fields);
    if PutBack(doc, after) {
      forall key ensures Get(after.fields, key) == Get(before.fields, key) {
        assert key in applied ==> Get(baseline, key) == Get(before.fields, key);
      }
      SameReads(after.fields, before.fields);
    }
  }

  /** From a restart at any point of any run, with any edits by others since the claim: one recovery whose requests
      all succeed clears the claim if and only if every journaled field still has the value that the run gave it.
      Each resource of which that is true is put back, its other fields and annotations as the others left them;
      each resource of which it is false stays as it is, journal included, and then the claim and the run in memory
      stay too. What nobody edited is back as it was when the claim landed. */
  lemma RecoveryOverEdits(s: State)
    requires Reachable(s) && RunOwned(s)
    ensures PersistedRun(s.docs).Found?
    ensures var run := PersistedRun(s.docs).run;
            var t := Exec(s, [Crash, Reload] + Sweep(RecoveryPlan(run)));
            && (!RunOwned(t) <==> forall r: Resource :: Intact(s.docs.At(r)))
            && t.ctl == (if RunOwned(t) then Controller(Some(run), Resting, [], None, false) else RESTARTED)
            && (forall r: Resource ::
                  if Intact(s.docs.At(r)) then PutBack(s.docs.At(r), t.docs.At(r)) else t.docs.At(r) == s.docs.At(r))
            && (forall r: Resource | r !in s.edited ::
                  Intact(s.docs.At(r)) && RestoredTo(t.docs.At(r), s.snap.At(r)))
  {
    ReachableInv(s);
    ClaimIsOnConfig(s);
    PersistedIsClaim(s);
    var run := PersistedRun(s.docs).run;
    var s' := Next(Next(s, Crash), Reload);
    RestartShape(s, run);
    RestartKeeps(s);
    RestartUnfolds(s, Sweep(RecoveryPlan(run)));
    SweepOver(s');
    var t := Exec(s', Sweep(RecoveryPlan(run)));
    RecoveredDocs(s', run, t);
    RecoveredClaim(s', t);
    forall r: Resource | r !in s.edited ensures Intact(s.docs.At(r)) && RestoredTo(t.docs.At(r), s.snap.At(r)) {
      assert DocInv(s.docs.At(r), r, s.claim, s.snap.At(r), false) && Stored(t.docs.At(r));
      UneditedIsPutBack(s.docs.At(r), r, s.claim.value, s.snap.At(r), t.docs.At(r));
    }
  }

  lemma RecoveredClaim(s: State, t: State)
    requires Sweeping(s) && t == Exec(s, Sweep(s.ctl.todo)) && SweptTo(s, t)
    ensures RunOwned(t) <==> !EndsCleared(s)
  {
    ExecInv(s, Sweep(s.ctl.todo));
    ClaimIsOnConfig(t);
  }
}
