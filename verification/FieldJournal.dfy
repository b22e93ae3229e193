/** The reversible-field journal: `_claim_fields` and `_restore_owned_fields`. */
module FieldJournal {
  import opened Json
  import opened VersionedStore

  /** What a client decides from one read: raise, return without writing, or send a patch. */
  datatype Verdict = Refuse | Leave | Write(patch: Patch)

  /** Python truthiness of an annotation: absent and the empty string are false. */
  predicate Truthy(value: Json) {
    value != Null && value != Text("")
  }

  /** `json.loads(annotations.get(name, "{}"))`. */
  function Decoded(ann: map<Name, Json>, name: Name): map<Name, Json> {
    if name in ann && ann[name].Encoded? then Members(ann[name].document) else map[]
  }

  predicate Decodable(ann: map<Name, Json>, name: Name) {
    name in ann ==> ann[name].Encoded? && ann[name].document.Object?
  }

  /** The three lines that extend `baseline`: a key journaled earlier keeps its first-seen value. */
  function ExtendBaseline(baseline: map<Name, Json>, fields: map<Name, Json>,
          updates: map<Name, Json>): map<Name, Json> {
    map key | key in baseline.Keys + updates.Keys :: if key in baseline then baseline[key] else Get(fields, key)
  }

  function JournalEntries(owner: string, baseline: map<Name, Json>, applied: map<Name, Json>): map<Name, Json> {
    map[FieldOwner := Text(owner), FieldBaseline := Encoded(Object(baseline)), FieldApplied := Encoded(Object(applied))]
  }

  function ClaimFields(doc: Doc, r: Resource, owner: string, updates: map<Name, Json>): Verdict {
    var existing := Get(doc.ann, FieldOwner);
    if Truthy(existing) && existing != Text(owner) then Refuse
    else if r == Config && Get(doc.ann, RunOwner) != Text(owner) then Refuse
    else
      var mine := existing == Text(owner);
      if mine && !(Decodable(doc.ann, FieldBaseline) && Decodable(doc.ann, FieldApplied)) then Refuse
      else
        var baseline := ExtendBaseline(if mine then Decoded(doc.ann, FieldBaseline) else map[], doc.fields, updates);
        var applied := (if mine then Decoded(doc.ann, FieldApplied) else map[]) + updates;
        Write(Patch(doc.version, doc.ann + JournalEntries(owner, baseline, applied), updates))
  }

  const JOURNAL: map<Name, Json> := map[FieldOwner := Null, FieldBaseline := Null, FieldApplied := Null]

  /** Every journaled field still has the value this run gave it. */
  predicate Untouched(fields: map<Name, Json>, applied: map<Name, Json>) {
    forall key | key in applied :: Get(fields, key) == applied[key]
  }

  function RestoreFields(doc: Doc, r: Resource, expected: string): Verdict {
    var owner := Get(doc.ann, FieldOwner);
    if r == Config && Get(doc.ann, RunOwner) != Text(expected) then Refuse
    else if !Truthy(owner) then Leave
    else if owner != Text(expected) then Refuse
    else if !(Decodable(doc.ann, FieldBaseline) && Decodable(doc.ann, FieldApplied)) then Refuse
    else
      var baseline := Decoded(doc.ann, FieldBaseline);
      var applied := Decoded(doc.ann, FieldApplied);
      if !Untouched(doc.fields, applied) then Refuse
      else Write(Patch(doc.version, doc.ann + JOURNAL, map key | key in applied :: Get(baseline, key)))
  }

  /** Who may write a field and who may restore one. A claim is refused exactly over another run's journal, on a
      ConfigMap that another run owns or none, or over an unreadable journal of its own; a restore likewise, and over
      an edited field; without a journal there is nothing to restore. */
  lemma FieldGuards(doc: Doc, r: Resource, owner: string, updates: map<Name, Json>)
    requires owner != ""
    ensures var journal := Get(doc.ann, FieldOwner);
            var foreign := journal != Null && journal != Text("") && journal != Text(owner);
            var unowned := r == Config && Get(doc.ann, RunOwner) != Text(owner);
            var broken := journal == Text(owner)
                && !(Decodable(doc.ann, FieldBaseline) && Decodable(doc.ann, FieldApplied));
            && (ClaimFields(doc, r, owner, updates).Refuse? <==> foreign || unowned || broken)
            && !ClaimFields(doc, r, owner, updates).Leave?
            && (RestoreFields(doc, r, owner).Leave? <==> !unowned && (journal == Null || journal == Text("")))
            && (RestoreFields(doc, r, owner).Write? <==>
                  && !unowned && !broken && journal == Text(owner)
                  && forall key | key in Decoded(doc.ann, FieldApplied) ::
                       Get(doc.fields, key) == Decoded(doc.ann, FieldApplied)[key])
  {
  }

  // ----- The two dictionary loops -----

  lemma OneMoreUpdate(baseline: map<Name, Json>, fields: map<Name, Json>, updates: map<Name, Json>, rest: set<Name>,
          key: Name)
    requires key in rest && rest <= updates.Keys
    ensures updates - (rest - {key}) == (updates - rest)[key := updates[key]]
    ensures var done := ExtendBaseline(baseline, fields, updates - rest);
            ExtendBaseline(baseline, fields, updates - (rest - {key})) == if key in done then done
                else done[key := Get(fields, key)]
  {
    assert updates - (rest - {key}) == (updates - rest)[key := updates[key]];
  }

  /** The loop of `_claim_fields` over `updates.items()`. */
  method ExtendJournal(fields: map<Name, Json>, updates: map<Name, Json>,
                       baseline0: map<Name, Json>, applied0: map<Name, Json>)
    returns (baseline: map<Name, Json>, applied: map<Name, Json>)
    ensures baseline == ExtendBaseline(baseline0, fields, updates)
    ensures applied == applied0 + updates
  {
    baseline, applied := baseline0, applied0;
    var rest := updates.Keys;
    while rest != {}
      invariant rest <= updates.Keys
      invariant baseline == ExtendBaseline(baseline0, fields, updates - rest)
      invariant applied == applied0 + (updates - rest)
    {
      var key :| key in rest;
      if key !in baseline {
        baseline := baseline[key := Get(fields, key)];
      }
      applied := applied[key := updates[key]];
      OneMoreUpdate(baseline0, fields, updates, rest, key);
      rest := rest - {key};
    }
    assert updates - rest == updates;
  }

  /** The loop of `_restore_owned_fields` over `applied.items()`: the first edited field raises. */
  method CollectRestore(fields: map<Name, Json>, baseline: map<Name, Json>, applied: map<Name, Json>)
    returns (edited: bool, restore: map<Name, Json>)
    ensures edited <==> !Untouched(fields, applied)
    ensures !edited ==> restore == map key | key in applied :: Get(baseline, key)
  {
    edited, restore := false, map[];
    var rest := applied.Keys;
    while rest != {}
      invariant rest <= applied.Keys
      invariant forall key | key in applied && key !in rest :: Get(fields, key) == applied[key]
      invariant restore == map key | key in applied && key !in rest :: Get(baseline, key)
    {
      var key :| key in rest;
      if Get(fields, key) != applied[key] {
        return true, restore;
      }
      restore := restore[key := Get(baseline, key)];
      rest := rest - {key};
    }
  }

  // ----- What the journal means -----

  predicate JournalName(name: Name) {
    name == FieldOwner || name == FieldBaseline || name == FieldApplied
  }

  ghost predicate NoJournal(doc: Doc) {
    forall name | JournalName(name) :: name !in doc.ann
  }

  /** A complete journal of `owner` that leads from `before` to the present fields. */
  ghost predicate Journaled(doc: Doc, owner: string, before: map<Name, Json>) {
    var baseline := Decoded(doc.ann, FieldBaseline);
    var applied := Decoded(doc.ann, FieldApplied);
    && Get(doc.ann, FieldOwner) == Text(owner)
    && Decodable(doc.ann, FieldBaseline) && Decodable(doc.ann, FieldApplied)
    && baseline.Keys == applied.Keys
    && (forall key | key in applied :: baseline[key] == Get(before, key) && !applied[key].Object?)
    && (forall key :: Get(doc.fields, key) == if key in applied then applied[key] else Get(before, key))
  }

  /** `before` is what restoring this document would bring back. */
  ghost predicate LeadsBack(doc: Doc, owner: string, before: map<Name, Json>) {
    (!Truthy(Get(doc.ann, FieldOwner)) && doc.fields == before) || Journaled(doc, owner, before)
  }

  ghost predicate SameForeignAnnotations(doc: Doc, doc': Doc) {
    forall name | !JournalName(name) :: Get(doc.ann, name) == Get(doc'.ann, name)
  }

  function Carry(doc: Doc, verdict: Verdict): Doc
    requires verdict.Write? ==> verdict.patch.version == doc.version
  {
    if verdict.Write? then Apply(doc, verdict.patch) else doc
  }

  lemma FlatMergeGet(base: map<Name, Json>, patch: map<Name, Json>, name: Name)
    requires Flat(patch)
    ensures Get(MergeMembers(base, patch), name) == if name in patch then patch[name] else Get(base, name)
  {
    MergeGet(base, patch, name);
  }

  /** Re-sending the annotations just read changes only the entries laid over them. */
  lemma OverlaidAnnotations(ann: map<Name, Json>, overlay: map<Name, Json>)
    requires NullFreeMembers(ann) && Flat(ann) && Flat(overlay)
    ensures var merged := MergeMembers(ann, ann + overlay);
            && NullFreeMembers(merged) && Flat(merged)
            && forall name :: Get(merged, name) == if name in overlay then overlay[name] else Get(ann, name)
  {
    var merged := MergeMembers(ann, ann + overlay);
    MergeMembersNullFree(ann, ann + overlay);
    forall name ensures Get(merged, name) == if name in overlay then overlay[name] else Get(ann, name) {
      FlatMergeGet(ann, ann + overlay, name);
    }
    forall name | name in merged ensures !merged[name].Object? {
      assert Get(merged, name) == merged[name];
    }
  }

  /** The journal entries a claim writes, given that it may write. */
  function ClaimedEntries(doc: Doc, owner: string, updates: map<Name, Json>): map<Name, Json> {
    var mine := Get(doc.ann, FieldOwner) == Text(owner);
    JournalEntries(owner,
                   ExtendBaseline(if mine then Decoded(doc.ann, FieldBaseline) else map[], doc.fields, updates),
                   (if mine then Decoded(doc.ann, FieldApplied) else map[]) + updates)
  }

  /** What a document reads as once a patch over its own annotations has landed. */
  lemma PatchedReads(doc: Doc, overlay: map<Name, Json>, updates: map<Name, Json>)
    requires Stored(doc) && Flat(overlay) && Flat(updates)
    ensures var after := Apply(doc, Patch(doc.version, doc.ann + overlay, updates));
            && Stored(after)
            && (forall name :: Get(after.ann, name) == if name in overlay then overlay[name] else Get(doc.ann, name))
            && (forall key :: Get(after.fields, key) == if key in updates then updates[key] else Get(doc.fields, key))
  {
    OverlaidAnnotations(doc.ann, overlay);
    MergeMembersNullFree(doc.fields, updates);
    forall key ensures Get(MergeMembers(doc.fields, updates), key) == if key in updates then updates[key]
        else Get(doc.fields, key) {
      FlatMergeGet(doc.fields, updates, key);
    }
  }

  lemma ClaimIsWritten(doc: Doc, r: Resource, owner: string, updates: map<Name, Json>, before: map<Name, Json>)
    requires owner != "" && LeadsBack(doc, owner, before)
    requires r == Config ==> Get(doc.ann, RunOwner) == Text(owner)
    ensures ClaimFields(doc, r, owner, updates)
            == Write(Patch(doc.version, doc.ann + ClaimedEntries(doc, owner, updates), updates))
  {
  }

  lemma ClaimedJournal(doc: Doc, owner: string, updates: map<Name, Json>, before: map<Name, Json>, after: Doc)
    requires owner != "" && Flat(updates) && LeadsBack(doc, owner, before)
    requires var overlay := ClaimedEntries(doc, owner, updates);
             forall name | JournalName(name) :: Get(after.ann, name) == overlay[name]
    requires forall key :: Get(after.fields, key) == if key in updates then updates[key] else Get(doc.fields, key)
    ensures Journaled(after, owner, before)
  {
    var overlay := ClaimedEntries(doc, owner, updates);
    assert Get(after.ann, FieldBaseline) == overlay[FieldBaseline];
    assert Get(after.ann, FieldApplied) == overlay[FieldApplied];
    assert Get(after.ann, FieldOwner) == overlay[FieldOwner];
  }

  /** The patch of a claim that may write. */
  function ClaimPatch(doc: Doc, owner: string, updates: map<Name, Json>): Patch {
    Patch(doc.version, doc.ann + ClaimedEntries(doc, owner, updates), updates)
  }

  lemma ClaimedDoc(doc: Doc, owner: string, updates: map<Name, Json>, before: map<Name, Json>)
    requires owner != "" && Stored(doc) && Flat(updates) && LeadsBack(doc, owner, before)
    ensures var after := Apply(doc, ClaimPatch(doc, owner, updates));
            && Stored(after) && Journaled(after, owner, before) && SameForeignAnnotations(doc, after)
            && forall key :: Get(after.fields, key) == if key in updates then updates[key] else Get(doc.fields, key)
  {
    var overlay := ClaimedEntries(doc, owner, updates);
    PatchedReads(doc, overlay, updates);
    var after := Apply(doc, ClaimPatch(doc, owner, updates));
    forall name | JournalName(name) ensures Get(after.ann, name) == overlay[name] {}
    ClaimedJournal(doc, owner, updates, before, after);
  }

  /** A claim by the run that may write keeps the way back to the first-seen values. */
  lemma ClaimKeepsWayBack(doc: Doc, r: Resource, owner: string, updates: map<Name, Json>, before: map<Name, Json>)
    requires owner != "" && Stored(doc) && Flat(updates) && LeadsBack(doc, owner, before)
    requires r == Config ==> Get(doc.ann, RunOwner) == Text(owner)
    ensures ClaimFields(doc, r, owner, updates).Write?
    ensures var after := Carry(doc, ClaimFields(doc, r, owner, updates));
            && Stored(after) && Journaled(after, owner, before) && SameForeignAnnotations(doc, after)
            && forall key :: Get(after.fields, key) == if key in updates then updates[key] else Get(doc.fields, key)
  {
    ClaimIsWritten(doc, r, owner, updates, before);
    ClaimedDoc(doc, owner, updates, before);
    assert Carry(doc, ClaimFields(doc, r, owner, updates)) == Apply(doc, ClaimPatch(doc, owner, updates));
  }

  lemma RestoredFields(doc: Doc, owner: string, before: map<Name, Json>)
    requires NullFreeMembers(doc.fields) && NullFreeMembers(before) && Journaled(doc, owner, before)
    ensures var baseline, applied := Decoded(doc.ann, FieldBaseline), Decoded(doc.ann, FieldApplied);
            MergeMembers(doc.fields, map key | key in applied :: Get(baseline, key)) == before
  {
    var baseline, applied := Decoded(doc.ann, FieldBaseline), Decoded(doc.ann, FieldApplied);
    var restore := map key | key in applied :: Get(baseline, key);
    MergeMembersNullFree(doc.fields, restore);
    var merged := MergeMembers(doc.fields, restore);
    forall key ensures Get(merged, key) == Get(before, key) {
      MergeGet(doc.fields, restore, key);
      if key in applied && baseline[key] != Null {
        assert Get(before, key) == before[key];
        MergeInstallsExactly(Get(doc.fields, key), baseline[key]);
      }
    }
    SameReads(merged, before);
  }

  lemma RestoredAnnotations(ann: map<Name, Json>)
    requires NullFreeMembers(ann) && Flat(ann)
    ensures var merged := MergeMembers(ann, ann + JOURNAL);
            && NullFreeMembers(merged) && Flat(merged)
            && forall name :: if JournalName(name) then name !in merged else Get(merged, name) == Get(ann, name)
  {
    OverlaidAnnotations(ann, JOURNAL);
    var merged := MergeMembers(ann, ann + JOURNAL);
    forall name | JournalName(name) ensures name !in merged {
      assert Get(merged, name) == Null;
    }
  }

  /** The patch of a restore that may write. */
  function RestorePatch(doc: Doc): Patch {
    var baseline, applied := Decoded(doc.ann, FieldBaseline), Decoded(doc.ann, FieldApplied);
    Patch(doc.version, doc.ann + JOURNAL, map key | key in applied :: Get(baseline, key))
  }

  lemma RestoreIsWritten(doc: Doc, r: Resource, owner: string, before: map<Name, Json>)
    requires owner != "" && Journaled(doc, owner, before)
    requires r == Config ==> Get(doc.ann, RunOwner) == Text(owner)
    ensures RestoreFields(doc, r, owner) == Write(RestorePatch(doc))
  {
    assert Untouched(doc.fields, Decoded(doc.ann, FieldApplied));
  }

  lemma RestoredDoc(doc: Doc, owner: string, before: map<Name, Json>)
    requires Stored(doc) && NullFreeMembers(before) && Journaled(doc, owner, before)
    ensures var after := Apply(doc, RestorePatch(doc));
            Stored(after) && after.fields == before && SameForeignAnnotations(doc, after) && NoJournal(after)
  {
    RestoredFields(doc, owner, before);
    RestoredAnnotations(doc.ann);
    var after := Apply(doc, RestorePatch(doc));
    assert after.ann == MergeMembers(doc.ann, doc.ann + JOURNAL) && after.fields == before;
  }

  /** Restoring brings the first-seen value of every field back and leaves no journal. */
  lemma RestoreTakesWayBack(doc: Doc, r: Resource, owner: string, before: map<Name, Json>)
    requires owner != "" && Stored(doc) && NullFreeMembers(before) && LeadsBack(doc, owner, before)
    requires r == Config ==> Get(doc.ann, RunOwner) == Text(owner)
    ensures !RestoreFields(doc, r, owner).Refuse?
    ensures var after := Carry(doc, RestoreFields(doc, r, owner));
            && Stored(after) && after.fields == before && SameForeignAnnotations(doc, after)
            && (NoJournal(doc) || Truthy(Get(doc.ann, FieldOwner)) ==> NoJournal(after))
  {
    if Journaled(doc, owner, before) {
      RestoreIsWritten(doc, r, owner, before);
      RestoredDoc(doc, owner, before);
      assert Carry(doc, RestoreFields(doc, r, owner)) == Apply(doc, RestorePatch(doc));
    }
  }

  // ----- Round trips -----

  /** Successive `_claim_fields` calls of one run, each on the document the previous one left. */
  function ClaimAll(doc: Doc, r: Resource, owner: string, batches: seq<map<Name, Json>>): (Doc, bool)
    decreases |batches|
  {
    if batches == [] then (doc, true)
    else
      var verdict := ClaimFields(doc, r, owner, batches[0]);
      if verdict.Write? then ClaimAll(Carry(doc, verdict), r, owner, batches[1..]) else (doc, false)
  }

  /** One more claim of the same run, whatever it claimed before. */
  lemma ClaimLeadsBack(doc: Doc, r: Resource, owner: string, updates: map<Name, Json>, before: map<Name, Json>)
    requires owner != "" && Stored(doc) && Flat(updates) && LeadsBack(doc, owner, before)
    requires r == Config ==> Get(doc.ann, RunOwner) == Text(owner)
    ensures ClaimFields(doc, r, owner, updates).Write?
    ensures var next := Carry(doc, ClaimFields(doc, r, owner, updates));
            && Stored(next) && LeadsBack(next, owner, before) && SameForeignAnnotations(doc, next)
            && Truthy(Get(next.ann, FieldOwner)) && (r == Config ==> Get(next.ann, RunOwner) == Text(owner))
  {
    ClaimKeepsWayBack(doc, r, owner, updates, before);
  }

  lemma {:induction false} ClaimsLeadBack(doc: Doc, r: Resource, owner: string, batches: seq<map<Name, Json>>,
          before: map<Name, Json>)
    requires owner != "" && Stored(doc) && LeadsBack(doc, owner, before)
    requires r == Config ==> Get(doc.ann, RunOwner) == Text(owner)
    requires forall i | 0 <= i < |batches| :: Flat(batches[i])
    ensures var (after, ok) := ClaimAll(doc, r, owner, batches);
            ok && Stored(after) && LeadsBack(after, owner, before) && SameForeignAnnotations(doc, after)
            && (batches != [] ==> Truthy(Get(after.ann, FieldOwner)))
    decreases |batches|
  {
    if batches != [] {
      ClaimLeadsBack(doc, r, owner, batches[0], before);
      var next := Carry(doc, ClaimFields(doc, r, owner, batches[0]));
      ClaimsLeadBack(next, r, owner, batches[1..], before);
    }
  }

  /** Any number of field claims by one run followed by its restore gives back every field, absent ones
      included, keeps every foreign annotation and leaves no journal. */
  lemma RoundTrip(doc: Doc, r: Resource, owner: string, batches: seq<map<Name, Json>>)
    requires owner != "" && Stored(doc) && NoJournal(doc)
    requires r == Config ==> Get(doc.ann, RunOwner) == Text(owner)
    requires forall i | 0 <= i < |batches| :: Flat(batches[i])
    ensures var (claimed, ok) := ClaimAll(doc, r, owner, batches);
            var verdict := RestoreFields(claimed, r, owner);
            && ok && !verdict.Refuse?
            && Carry(claimed, verdict).fields == doc.fields
            && Carry(claimed, verdict).ann == doc.ann
  {
    ClaimsLeadBack(doc, r, owner, batches, doc.fields);
    var claimed := ClaimAll(doc, r, owner, batches).0;
    assert Get(claimed.ann, RunOwner) == Get(doc.ann, RunOwner);
    RestoreTakesWayBack(claimed, r, owner, doc.fields);
    var after := Carry(claimed, RestoreFields(claimed, r, owner));
    if batches != [] {
      forall name ensures Get(after.ann, name) == Get(doc.ann, name) {
        if !JournalName(name) {
          assert Get(claimed.ann, name) == Get(doc.ann, name);
          assert Get(after.ann, name) == Get(claimed.ann, name);
        }
      }
      SameReads(after.ann, doc.ann);
    }
  }

  /** A restore that meets a decodable journal of its own run writes exactly when no journaled field was
      edited; the write touches the journaled fields alone, so edits elsewhere survive. */
  lemma RestoreWritesIffUntouched(doc: Doc, r: Resource, owner: string)
    requires owner != "" && Stored(doc) && Get(doc.ann, FieldOwner) == Text(owner)
    requires Decodable(doc.ann, FieldBaseline) && Decodable(doc.ann, FieldApplied)
    requires r == Config ==> Get(doc.ann, RunOwner) == Text(owner)
    ensures var baseline, applied := Decoded(doc.ann, FieldBaseline), Decoded(doc.ann, FieldApplied);
            var verdict := RestoreFields(doc, r, owner);
            var after := Carry(doc, verdict);
            && (verdict.Write? <==> forall key | key in applied :: Get(doc.fields, key) == applied[key])
            && (!verdict.Write? ==> verdict.Refuse? && after == doc)
            && (verdict.Write? ==> forall key | key !in applied :: Get(after.fields, key) == Get(doc.fields, key))
            && (verdict.Write? ==> forall key | key in applied && Get(baseline, key) == Null :: key !in after.fields)
  {
    OwnVerdict(doc, r, owner);
    RestoreReads(doc);
  }

  lemma OwnVerdict(doc: Doc, r: Resource, owner: string)
    requires owner != "" && Get(doc.ann, FieldOwner) == Text(owner)
    requires Decodable(doc.ann, FieldBaseline) && Decodable(doc.ann, FieldApplied)
    requires r == Config ==> Get(doc.ann, RunOwner) == Text(owner)
    ensures RestoreFields(doc, r, owner)
         == if Untouched(doc.fields, Decoded(doc.ann, FieldApplied)) then Write(RestorePatch(doc)) else Refuse
  {
  }

  /** What the restoring patch leaves of the other fields, and of those that were absent. */
  lemma RestoreReads(doc: Doc)
    requires Stored(doc)
    ensures var baseline, applied := Decoded(doc.ann, FieldBaseline), Decoded(doc.ann, FieldApplied);
            var after := Apply(doc, RestorePatch(doc));
            && (forall key | key !in applied :: Get(after.fields, key) == Get(doc.fields, key))
            && (forall key | key in applied && Get(baseline, key) == Null :: key !in after.fields)
  {
    var baseline, applied := Decoded(doc.ann, FieldBaseline), Decoded(doc.ann, FieldApplied);
    var restore := RestorePatch(doc).fields;
    var merged := MergeMembers(doc.fields, restore);
    assert Apply(doc, RestorePatch(doc)).fields == merged;
    forall key ensures key !in applied ==> Get(merged, key) == Get(doc.fields, key) {
      MergeGet(doc.fields, restore, key);
    }
  }

  /** Object-valued updates merge into what is there, so for those the round trip can fail. It succeeds
      exactly when no update has a null member and each has, level by level, the member names it meets. */
  lemma RoundTripExactly(doc: Doc, r: Resource, owner: string, updates: map<Name, Json>)
    requires owner != "" && Stored(doc) && NoJournal(doc)
    requires r == Config ==> Get(doc.ann, RunOwner) == Text(owner)
    ensures var claimed := Carry(doc, ClaimFields(doc, r, owner, updates));
            var verdict := RestoreFields(claimed, r, owner);
            verdict.Write? && Carry(claimed, verdict).fields == doc.fields
            <==> forall key | key in updates ::
                   && NullFree(updates[key])
                   && Covers(updates[key], Get(doc.fields, key)) && Covers(Get(doc.fields, key), updates[key])
  {
    ClaimAnnotations(doc, r, owner, updates);
    ExactlyAfter(doc, Carry(doc, ClaimFields(doc, r, owner, updates)), r, owner, updates);
  }

  lemma ExactlyAfter(doc: Doc, claimed: Doc, r: Resource, owner: string, updates: map<Name, Json>)
    requires owner != "" && NullFreeMembers(doc.fields) && claimed.fields == MergeMembers(doc.fields, updates)
    requires Get(claimed.ann, FieldOwner) == Text(owner)
    requires Get(claimed.ann, FieldBaseline) == Encoded(Object(ExtendBaseline(map[], doc.fields, updates)))
    requires Get(claimed.ann, FieldApplied) == Encoded(Object(updates))
    requires r == Config ==> Get(claimed.ann, RunOwner) == Text(owner)
    ensures var verdict := RestoreFields(claimed, r, owner);
            verdict.Write? && Carry(claimed, verdict).fields == doc.fields
            <==> forall key | key in updates ::
                   && NullFree(updates[key])
                   && Covers(updates[key], Get(doc.fields, key)) && Covers(Get(doc.fields, key), updates[key])
  {
    ClaimedReads(doc, claimed, updates);
    OwnVerdict(claimed, r, owner);
    assert Decoded(claimed.ann, FieldApplied) == updates;
    if Untouched(claimed.fields, updates) {
      RestoreAfterClaim(doc, claimed, r, owner, updates);
      RestoredExactly(doc, claimed, updates);
    }
  }

  /** The fields that a restore after an untouched claim leaves are the old ones exactly when nothing shows through. */
  lemma RestoredExactly(doc: Doc, claimed: Doc, updates: map<Name, Json>)
    requires NullFreeMembers(doc.fields) && forall key | key in updates :: NullFree(updates[key])
    requires Untouched(claimed.fields, updates)
    requires forall key | key !in updates :: Get(claimed.fields, key) == Get(doc.fields, key)
    requires NullFreeMembers(MergeMembers(claimed.fields, ExtendBaseline(map[], doc.fields, updates)))
    ensures MergeMembers(claimed.fields, ExtendBaseline(map[], doc.fields, updates)) == doc.fields
            <==> forall key | key in updates :: Covers(Get(doc.fields, key), updates[key])
  {
    RestoredReads(doc, claimed, updates);
    var restored := MergeMembers(claimed.fields, ExtendBaseline(map[], doc.fields, updates));
    if forall key | key in updates :: Covers(Get(doc.fields, key), updates[key]) {
      SameReads(restored, doc.fields);
    } else {
      var key :| key in updates && !Covers(Get(doc.fields, key), updates[key]);
      assert Get(restored, key) != Get(doc.fields, key);
    }
  }

  lemma ClaimedReads(doc: Doc, claimed: Doc, updates: map<Name, Json>)
    requires NullFreeMembers(doc.fields) && claimed.fields == MergeMembers(doc.fields, updates)
    ensures NullFreeMembers(claimed.fields)
    ensures forall key | key !in updates :: Get(claimed.fields, key) == Get(doc.fields, key)
    ensures Untouched(claimed.fields, updates)
            <==> forall key | key in updates :: NullFree(updates[key]) && Covers(updates[key], Get(doc.fields, key))
  {
    MergeMembersNullFree(doc.fields, updates);
    forall key
      ensures key !in updates ==> Get(claimed.fields, key) == Get(doc.fields, key)
      ensures key in updates ==>
                (Get(claimed.fields, key) == updates[key]
                 <==> NullFree(updates[key]) && Covers(updates[key], Get(doc.fields, key)))
    {
      MergeGet(doc.fields, updates, key);
      if key in updates {
        MergeInstallsExactly(Get(doc.fields, key), updates[key]);
      }
    }
  }

  lemma RestoreAfterClaim(doc: Doc, claimed: Doc, r: Resource, owner: string, updates: map<Name, Json>)
    requires owner != "" && NullFreeMembers(claimed.fields) && Untouched(claimed.fields, updates)
    requires Get(claimed.ann, FieldOwner) == Text(owner)
    requires Get(claimed.ann, FieldBaseline) == Encoded(Object(ExtendBaseline(map[], doc.fields, updates)))
    requires Get(claimed.ann, FieldApplied) == Encoded(Object(updates))
    requires r == Config ==> Get(claimed.ann, RunOwner) == Text(owner)
    ensures var verdict := RestoreFields(claimed, r, owner);
            verdict.Write? && Carry(claimed, verdict).fields
                == MergeMembers(claimed.fields, ExtendBaseline(map[], doc.fields, updates))
    ensures NullFreeMembers(MergeMembers(claimed.fields, ExtendBaseline(map[], doc.fields, updates)))
  {
    var baseline := ExtendBaseline(map[], doc.fields, updates);
    OwnVerdict(claimed, r, owner);
    assert Decoded(claimed.ann, FieldBaseline) == baseline && Decoded(claimed.ann, FieldApplied) == updates;
    assert RestorePatch(claimed).fields == baseline;
    MergeMembersNullFree(claimed.fields, baseline);
  }

  lemma ClaimAnnotations(doc: Doc, r: Resource, owner: string, updates: map<Name, Json>)
    requires owner != "" && Stored(doc) && NoJournal(doc)
    requires r == Config ==> Get(doc.ann, RunOwner) == Text(owner)
    ensures ClaimFields(doc, r, owner, updates).Write?
    ensures var after := Carry(doc, ClaimFields(doc, r, owner, updates));
            && after.fields == MergeMembers(doc.fields, updates)
            && Get(after.ann, FieldOwner) == Text(owner)
            && Get(after.ann, FieldBaseline) == Encoded(Object(ExtendBaseline(map[], doc.fields, updates)))
            && Get(after.ann, FieldApplied) == Encoded(Object(updates))
            && Get(after.ann, RunOwner) == Get(doc.ann, RunOwner)
  {
    ClaimIsWritten(doc, r, owner, updates, doc.fields);
    assert map[] + updates == updates;
    FirstClaimReads(doc.ann, owner, ExtendBaseline(map[], doc.fields, updates), updates);
    assert ClaimedEntries(doc, owner, updates)
        == JournalEntries(owner, ExtendBaseline(map[], doc.fields, updates), updates);
  }

  lemma FirstClaimReads(ann: map<Name, Json>, owner: string, baseline: map<Name, Json>, applied: map<Name, Json>)
    requires NullFreeMembers(ann) && Flat(ann)
    ensures var merged := MergeMembers(ann, ann + JournalEntries(owner, baseline, applied));
            && Get(merged, FieldOwner) == Text(owner)
            && Get(merged, FieldBaseline) == Encoded(Object(baseline))
            && Get(merged, FieldApplied) == Encoded(Object(applied))
            && Get(merged, RunOwner) == Get(ann, RunOwner)
  {
    OverlaidAnnotations(ann, JournalEntries(owner, baseline, applied));
  }

  lemma RestoredReads(doc: Doc, claimed: Doc, updates: map<Name, Json>)
    requires NullFreeMembers(doc.fields) && forall key | key in updates :: NullFree(updates[key])
    requires Untouched(claimed.fields, updates)
    requires forall key | key !in updates :: Get(claimed.fields, key) == Get(doc.fields, key)
    ensures var restored := MergeMembers(claimed.fields, ExtendBaseline(map[], doc.fields, updates));
            forall key :: Get(restored, key) == Get(doc.fields, key) <==>
                          (key in updates ==> Covers(Get(doc.fields, key), updates[key]))
  {
    var baseline := ExtendBaseline(map[], doc.fields, updates);
    var restored := MergeMembers(claimed.fields, baseline);
    forall key ensures Get(restored, key) == Get(doc.fields, key)
        <==> (key in updates ==> Covers(Get(doc.fields, key), updates[key])) {
      MergeGet(claimed.fields, baseline, key);
      if key in updates {
        MergeInstallsExactly(updates[key], Get(doc.fields, key));
      }
    }
  }

  /** A second failing input: a null inside an update is never stored, so the restore takes the field for edited. */
  lemma NullMemberIsNotUndone()
    ensures var field, a := Key("selector"), Key("a");
            var doc := Doc(1, map[], map[field := Object(map[a := Number(1)])]);
            var updates := map[field := Object(map[a := Null])];
            var claimed := Carry(doc, ClaimFields(doc, Monitor, "run", updates));
            RestoreFields(claimed, Monitor, "run").Refuse?
  {
    var field, a := Key("selector"), Key("a");
    var doc := Doc(1, map[], map[field := Object(map[a := Number(1)])]);
    var updates := map[field := Object(map[a := Null])];
    assert NullFree(doc.fields[field]) && updates[field].members[a] == Null;
    NullIsRefused(doc, Monitor, "run", updates, field);
  }

  /** A null anywhere inside an update makes the restore refuse. */
  lemma NullIsRefused(doc: Doc, r: Resource, owner: string, updates: map<Name, Json>, key: Name)
    requires owner != "" && Stored(doc) && NoJournal(doc) && key in updates && !NullFree(updates[key])
    requires r == Config ==> Get(doc.ann, RunOwner) == Text(owner)
    ensures RestoreFields(Carry(doc, ClaimFields(doc, r, owner, updates)), r, owner).Refuse?
  {
    ClaimAnnotations(doc, r, owner, updates);
    var claimed := Carry(doc, ClaimFields(doc, r, owner, updates));
    ClaimedReads(doc, claimed, updates);
    EditedIsRefused(claimed, r, owner, updates);
  }

  lemma EditedIsRefused(doc: Doc, r: Resource, owner: string, applied: map<Name, Json>)
    requires owner != "" && Get(doc.ann, FieldOwner) == Text(owner)
            && Get(doc.ann, FieldApplied) == Encoded(Object(applied))
    requires !Untouched(doc.fields, applied)
    ensures RestoreFields(doc, r, owner).Refuse?
  {
  }

  /** A concrete failing input: an added member of an object-valued field survives the restore. */
  lemma AddedMemberIsNotUndone()
    ensures var field, a, b := Key("selector"), Key("a"), Key("b");
            var doc := Doc(1, map[], map[field := Object(map[a := Number(1)])]);
            var updates := map[field := Object(map[a := Number(1), b := Number(2)])];
            var claimed := Carry(doc, ClaimFields(doc, Monitor, "run", updates));
            !(RestoreFields(claimed, Monitor, "run").Write?
                && Carry(claimed, RestoreFields(claimed, Monitor, "run")).fields == doc.fields)
  {
    var field, a, b := Key("selector"), Key("a"), Key("b");
    var doc := Doc(1, map[], map[field := Object(map[a := Number(1)])]);
    var updates := map[field := Object(map[a := Number(1), b := Number(2)])];
    assert NullFree(doc.fields[field]) && NullFree(updates[field]);
    RoundTripExactly(doc, Monitor, "run", updates);
    assert b in updates[field].members && b !in Get(doc.fields, field).members;
    assert !Covers(Get(doc.fields, field), updates[field]);
  }
}
