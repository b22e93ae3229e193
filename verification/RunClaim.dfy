/** Run ownership on the scenario ConfigMap: the controller's claim, clear, job and reload operations
    (JSON Merge Patch) and the screenshot runner's lock and monitor edits (JSON Patch). */
module RunClaim {
  import opened Json
  import opened VersionedStore
  import opened FieldJournal
  import opened Wrappers

  datatype Run = Run(id: string, targets: seq<string>, baseline: map<Name, Json>, expires: int, jobId: Option<int>)

  const MONITOR_TARGET := "exporter-monitor"

  predicate ValidRunId(id: string) {
    |id| == 32 && forall i | 0 <= i < 32 :: '0' <= id[i] <= '9' || 'a' <= id[i] <= 'f'
  }

  /** A run id is 32 lower-case hexadecimal digits. */
  lemma RunIds(id: string)
    ensures ValidRunId(id) <==> |id| == 32 && forall i | 0 <= i < |id| :: id[i] in "0123456789abcdef"
  {
    forall digit: char ensures '0' <= digit <= '9' || 'a' <= digit <= 'f' <==> digit in "0123456789abcdef" {
      HexDigits(digit);
    }
  }

  lemma HexDigits(digit: char)
    ensures '0' <= digit <= '9' || 'a' <= digit <= 'f' <==> digit in "0123456789abcdef"
  {
    var digits := "0123456789abcdef";
    if '0' <= digit <= '9' {
      assert digits[digit as int - '0' as int] == digit;
    }
    if 'a' <= digit <= 'f' {
      assert digits[10 + (digit as int - 'a' as int)] == digit;
    }
  }

  // ----- Controller operations -----

  function TextItems(texts: seq<string>): seq<Json> {
    seq(|texts|, i requires 0 <= i < |texts| => Text(texts[i]))
  }

  function ClaimEntries(run: Run): map<Name, Json> {
    map[RunOwner := Text(run.id),
        RunTargets := Encoded(Array(TextItems(run.targets))),
        RunBaseline := Encoded(Object(run.baseline)),
        RunExpiry := Encoded(Number(run.expires))]
  }

  /** `_claim_run`. */
  function ClaimRun(doc: Doc, run: Run): Verdict {
    if Truthy(Get(doc.ann, RunOwner)) then Refuse
    else if Truthy(Get(doc.ann, ProbeOwner)) then Refuse
    else Write(Patch(doc.version, ClaimEntries(run), map[]))
  }

  /** `_persist_job_id`. */
  function PersistJobId(doc: Doc, owner: string, jobId: int): Verdict {
    if Get(doc.ann, RunOwner) != Text(owner) then Refuse
    else Write(Patch(doc.version, doc.ann[RunJobId := Encoded(Number(jobId))], map[]))
  }

  const CLAIM: map<Name, Json> :=
    map[RunOwner := Null, RunTargets := Null, RunBaseline := Null, RunExpiry := Null, RunJobId := Null]

  /** `_clear_run_claim`. */
  function ClearRunClaim(doc: Doc, owner: string): Verdict {
    if Get(doc.ann, RunOwner) != Text(owner) then Refuse
    else Write(Patch(doc.version, doc.ann + CLAIM, map[]))
  }

  datatype Persisted = Invalid | NoRun | Found(run: Run)

  predicate IntegerText(value: Json) {
    value.Encoded? && value.document.Number?
  }

  predicate TargetsText(value: Json) {
    value.Encoded? && value.document.Array? && forall i | 0 <= i < |value.document.items| ::
        value.document.items[i].Text?
  }

  /** `_persisted_run`, on the documents its reads return. */
  function PersistedRun(docs: Docs): Persisted {
    var ann := docs.config.ann;
    var owner := Get(ann, RunOwner);
    if !Truthy(owner) then
      if exists r: Resource :: Truthy(Get(docs.At(r).ann, FieldOwner)) then Invalid else NoRun
    else if !(owner.Text? && ValidRunId(owner.text)) then Invalid
    else
      var targets, baseline, expiry, job := Get(ann, RunTargets), Get(ann, RunBaseline), Get(ann, RunExpiry),
          Get(ann, RunJobId);
      if !TargetsText(targets) || !(baseline.Encoded? && baseline.document.Object?) || !IntegerText(expiry) then Invalid
      else if Truthy(job) && !IntegerText(job) then Invalid
      else
        var items := targets.document.items;
        Found(Run(owner.text, seq(|items|, i requires 0 <= i < |items| => items[i].text), baseline.document.members,
                  expiry.document.value, if Truthy(job) then Some(job.document.value) else None))
  }

  /** Who may write the claim: a run takes it only from nobody, and records its job and clears it only while it
      is its own. */
  lemma OwnerGuards(doc: Doc, run: Run, jobId: int)
    ensures ClaimRun(doc, run).Write? <==>
              (Get(doc.ann, RunOwner) in {Null, Text("")}) && (Get(doc.ann, ProbeOwner) in {Null, Text("")})
    ensures PersistJobId(doc, run.id, jobId).Write? <==> Get(doc.ann, RunOwner) == Text(run.id)
    ensures ClearRunClaim(doc, run.id).Write? <==> Get(doc.ann, RunOwner) == Text(run.id)
    ensures !ClaimRun(doc, run).Leave? && !PersistJobId(doc, run.id, jobId).Leave? && !ClearRunClaim(doc, run.id).Leave?
  {
  }

  /** What reading the claim back says of any three documents: no run exactly when there is no owner and no journal, and
      a run exactly when its identity, targets, baseline, expiry and job all read. */
  lemma PersistedMeans(docs: Docs)
    ensures var ann := docs.config.ann;
            var owner, job := Get(ann, RunOwner), Get(ann, RunJobId);
            && (PersistedRun(docs) == NoRun <==>
                  && owner in {Null, Text("")}
                  && forall r: Resource :: Get(docs.At(r).ann, FieldOwner) in {Null, Text("")})
            && (PersistedRun(docs).Found? <==>
                  && owner.Text? && ValidRunId(owner.text) && TargetsText(Get(ann, RunTargets))
                  && Get(ann, RunBaseline).Encoded? && Get(ann, RunBaseline).document.Object?
                  && IntegerText(Get(ann, RunExpiry)) && (job in {Null, Text("")} || IntegerText(job)))
  {
    assert !ValidRunId("");
  }

  // ----- The screenshot runner: JSON Patch (RFC 6902) -----

  datatype Operation =
    | TestVersion(version: nat)
    | TestAnnotation(name: Name, value: Json)
    | AddAnnotations(members: map<Name, Json>)
    | AddAnnotation(name: Name, value: Json)
    | RemoveAnnotation(name: Name)
    | ReplaceEndpointPath(path: Json)

  datatype OpsVerdict = Stop | Skip | Perform(ops: seq<Operation>)

  predicate HasEndpointPath(fields: map<Name, Json>) {
    && Endpoints in fields && fields[Endpoints].Array? && |fields[Endpoints].items| > 0
    && fields[Endpoints].items[0].Object? && Path in fields[Endpoints].items[0].members
  }

  function EndpointPath(fields: map<Name, Json>): Json {
    if HasEndpointPath(fields) then fields[Endpoints].items[0].members[Path] else Null
  }

  function WithEndpointPath(fields: map<Name, Json>, path: Json): map<Name, Json>
    requires HasEndpointPath(fields)
  {
    var items := fields[Endpoints].items;
    fields[Endpoints := Array(items[0 := Object(items[0].members[Path := path])])]
  }

  /** One operation; `remove` and `replace` need their target to exist, `test` needs it to be equal, and `add`
      needs the object it adds to (sections 4.1, 4.2, 4.3 and 4.6 of RFC 6902). The server stores no empty
      annotations object, so a document without annotations has none. */
  predicate Possible(doc: Doc, ann: map<Name, Json>, fields: map<Name, Json>, op: Operation) {
    match op
    case TestVersion(version) => version == doc.version
    case TestAnnotation(name, value) => name in ann && ann[name] == value
    case AddAnnotations(_) => true
    case AddAnnotation(_, _) => ann != map[]
    case RemoveAnnotation(name) => name in ann
    case ReplaceEndpointPath(_) => HasEndpointPath(fields)
  }

  /** The operations in order, all or nothing (section 5 of RFC 6902). */
  function Outcome(doc: Doc, ann: map<Name, Json>, fields: map<Name, Json>,
          ops: seq<Operation>): Option<(map<Name, Json>, map<Name, Json>)>
    decreases |ops|
  {
    if ops == [] then Some((ann, fields))
    else if !Possible(doc, ann, fields, ops[0]) then None
    else
      match ops[0]
      case TestVersion(_) => Outcome(doc, ann, fields, ops[1..])
      case TestAnnotation(_, _) => Outcome(doc, ann, fields, ops[1..])
      case AddAnnotations(members) => Outcome(doc, members, fields, ops[1..])
      case AddAnnotation(name, value) => Outcome(doc, ann[name := value], fields, ops[1..])
      case RemoveAnnotation(name) => Outcome(doc, ann - {name}, fields, ops[1..])
      case ReplaceEndpointPath(path) => Outcome(doc, ann, WithEndpointPath(fields, path), ops[1..])
  }

  function SendOps(doc: Doc, ops: seq<Operation>, fate: Fate): (Doc, bool) {
    var outcome := Outcome(doc, doc.ann, doc.fields, ops);
    if fate == Dropped || outcome.None? then (doc, false)
    else (Commit(doc, outcome.value.0, outcome.value.1), fate == Acknowledged)
  }

  /** `claim_external_run`. */
  function ClaimExternal(doc: Doc, owner: string): OpsVerdict {
    if Truthy(Get(doc.ann, RunOwner)) || Truthy(Get(doc.ann, FieldOwner)) then Stop
    else if Truthy(Get(doc.ann, ProbeOwner)) then Stop
    else if doc.ann == map[] then Perform([TestVersion(doc.version), AddAnnotations(map[ProbeOwner := Text(owner)])])
    else Perform([TestVersion(doc.version), AddAnnotation(ProbeOwner, Text(owner))])
  }

  /** `release_external_run`. */
  function ReleaseExternal(doc: Doc, owner: string): OpsVerdict {
    var current := Get(doc.ann, ProbeOwner);
    if current == Null then Skip
    else if current != Text(owner) then Stop
    else Perform([TestVersion(doc.version), TestAnnotation(ProbeOwner, Text(owner)), RemoveAnnotation(ProbeOwner)])
  }

  const FAULT_PATH := "/metrics-v2"

  /** `patch_monitor`, setting the fault path and the owner mark. */
  function MarkMonitor(doc: Doc, owner: string): seq<Operation> {
    [TestVersion(doc.version), ReplaceEndpointPath(Text(FAULT_PATH)), AddAnnotation(ProbeOwner, Text(owner))]
  }

  /** The mark adds one annotation, so it needs a monitor that has some. */
  predicate Markable(doc: Doc) {
    HasEndpointPath(doc.fields) && doc.ann != map[]
  }

  /** The monitor part of `restore`, given the monitor recorded before the run. */
  function RestoreMonitor(doc: Doc, before: Doc, owner: string): OpsVerdict {
    var marker := Get(doc.ann, ProbeOwner);
    var path := EndpointPath(doc.fields);
    if marker == Text(owner) && path == Text(FAULT_PATH) then
      Perform([TestVersion(doc.version), ReplaceEndpointPath(EndpointPath(before.fields)),
          RemoveAnnotation(ProbeOwner)])
    else if marker != Null || path != EndpointPath(before.fields) then Stop
    else Skip
  }

  /** What the runner does about the lock and about the monitor: it locks only a Lab that nobody owns and no journal
      marks; it gives up its own lock alone, and has nothing to give up when there is none; it takes its own fault path
      back, leaves a monitor that is as before alone, and stops at anything else. */
  lemma RunnerGuards(doc: Doc, before: Doc, owner: string)
    ensures ClaimExternal(doc, owner).Perform?
            <==> forall name | name in {RunOwner, FieldOwner, ProbeOwner} :: Get(doc.ann, name) in {Null, Text("")}
    ensures !ClaimExternal(doc, owner).Perform? ==> ClaimExternal(doc, owner) == Stop
    ensures ReleaseExternal(doc, owner).Perform? <==> Get(doc.ann, ProbeOwner) == Text(owner)
    ensures ReleaseExternal(doc, owner) == Skip <==> Get(doc.ann, ProbeOwner) == Null
    ensures var marked, path := Get(doc.ann, ProbeOwner), EndpointPath(doc.fields);
            && (RestoreMonitor(doc, before, owner).Perform? <==> marked == Text(owner) && path == Text("/metrics-v2"))
            && (RestoreMonitor(doc, before, owner) == Skip <==> marked == Null && path == EndpointPath(before.fields))
  {
    assert RunOwner in {RunOwner, FieldOwner, ProbeOwner};
  }

  // ----- Effects, operation by operation -----

  /** What a landed JSON Patch of this runner does; anything else leaves the document alone. */
  lemma OpsAreAtomic(current: Doc, ops: seq<Operation>, fate: Fate)
    requires ops != [] && ops[0].TestVersion? && ops[0].version != current.version
    ensures SendOps(current, ops, fate) == (current, false)
  {
  }

  lemma ClaimExternalEffect(doc: Doc, owner: string, fate: Fate)
    requires ClaimExternal(doc, owner).Perform?
    ensures SendOps(doc, ClaimExternal(doc, owner).ops, fate)
         == if fate == Dropped then (doc, false)
             else (Commit(doc, doc.ann[ProbeOwner := Text(owner)], doc.fields), fate == Acknowledged)
  {
    var ops := ClaimExternal(doc, owner).ops;
    var ann := doc.ann[ProbeOwner := Text(owner)];
    assert ops[1..] == if doc.ann == map[] then [AddAnnotations(ann)] else [AddAnnotation(ProbeOwner, Text(owner))];
    assert ops[1..][1..] == [];
    assert Outcome(doc, doc.ann, doc.fields, ops[1..]) == Some((ann, doc.fields));
  }

  lemma ReleaseExternalEffect(doc: Doc, owner: string, fate: Fate)
    requires ReleaseExternal(doc, owner).Perform?
    ensures SendOps(doc, ReleaseExternal(doc, owner).ops, fate)
         == if fate == Dropped then (doc, false)
             else (Commit(doc, doc.ann - {ProbeOwner}, doc.fields), fate == Acknowledged)
  {
    var ops := ReleaseExternal(doc, owner).ops;
    assert ops[1..] == [TestAnnotation(ProbeOwner, Text(owner)), RemoveAnnotation(ProbeOwner)];
    assert ops[1..][1..] == [RemoveAnnotation(ProbeOwner)];
    var ann := doc.ann - {ProbeOwner};
    assert ops[1..][1..][1..] == [];
    assert Outcome(doc, doc.ann, doc.fields, ops[1..][1..]) == Some((ann, doc.fields));
    assert Outcome(doc, doc.ann, doc.fields, ops[1..]) == Some((ann, doc.fields));
  }

  lemma MarkMonitorEffect(doc: Doc, owner: string, fate: Fate)
    ensures SendOps(doc, MarkMonitor(doc, owner), fate)
         == if fate == Dropped || !Markable(doc) then (doc, false)
            else (Commit(doc, doc.ann[ProbeOwner := Text(owner)], WithEndpointPath(doc.fields, Text(FAULT_PATH))),
                fate == Acknowledged)
  {
    var ops := MarkMonitor(doc, owner);
    assert ops[1..] == [ReplaceEndpointPath(Text(FAULT_PATH)), AddAnnotation(ProbeOwner, Text(owner))];
    assert ops[1..][1..] == [AddAnnotation(ProbeOwner, Text(owner))];
    assert ops[1..][1..][1..] == [];
    if HasEndpointPath(doc.fields) {
      var ann, fields := doc.ann[ProbeOwner := Text(owner)], WithEndpointPath(doc.fields, Text(FAULT_PATH));
      assert Outcome(doc, doc.ann, fields, ops[1..][1..]) == if doc.ann == map[] then None else Some((ann, fields));
      assert Outcome(doc, doc.ann, doc.fields, ops[1..]) == Outcome(doc, doc.ann, fields, ops[1..][1..]);
    } else {
      assert Outcome(doc, doc.ann, doc.fields, ops[1..]) == None;
    }
  }

  lemma RestoreMonitorEffect(doc: Doc, before: Doc, owner: string, fate: Fate)
    requires RestoreMonitor(doc, before, owner).Perform?
    ensures SendOps(doc, RestoreMonitor(doc, before, owner).ops, fate)
         == if fate == Dropped then (doc, false)
            else (Commit(doc, doc.ann - {ProbeOwner}, WithEndpointPath(doc.fields, EndpointPath(before.fields))),
                fate == Acknowledged)
  {
    var ops := RestoreMonitor(doc, before, owner).ops;
    assert ops[1..] == [ReplaceEndpointPath(EndpointPath(before.fields)), RemoveAnnotation(ProbeOwner)];
    assert ops[1..][1..] == [RemoveAnnotation(ProbeOwner)];
    assert ops[1..][1..][1..] == [];
    var ann, fields := doc.ann - {ProbeOwner}, WithEndpointPath(doc.fields, EndpointPath(before.fields));
    assert Outcome(doc, doc.ann, fields, ops[1..][1..]) == Some((ann, fields));
    assert Outcome(doc, doc.ann, doc.fields, ops[1..]) == Some((ann, fields));
  }

  /** The runner's restore undoes its own mark exactly, and has nothing to undo when the mark could not land. */
  lemma MarkThenRestore(before: Doc, owner: string)
    requires ProbeOwner !in before.ann
    ensures var marked := SendOps(before, MarkMonitor(before, owner), Acknowledged).0;
            if Markable(before) then
              && RestoreMonitor(marked, before, owner).Perform?
              && var restored := SendOps(marked, RestoreMonitor(marked, before, owner).ops, Acknowledged).0;
                 restored.fields == before.fields && restored.ann == before.ann
            else marked == before && RestoreMonitor(marked, before, owner).Skip?
  {
    MarkMonitorEffect(before, owner, Acknowledged);
    if Markable(before) {
      var marked := SendOps(before, MarkMonitor(before, owner), Acknowledged).0;
      var items := before.fields[Endpoints].items;
      assert marked.fields[Endpoints].items[0].members[Path] == Text(FAULT_PATH);
      RestoreMonitorEffect(marked, before, owner, Acknowledged);
      assert items[0].members[Path := Text(FAULT_PATH)][Path := items[0].members[Path]] == items[0].members;
      assert marked.fields[Endpoints].items[0 := Object(items[0].members)] == items;
      assert WithEndpointPath(marked.fields, EndpointPath(before.fields)) == before.fields;
      assert before.ann[ProbeOwner := Text(owner)] - {ProbeOwner} == before.ann;
    }
  }

  /** What the ConfigMap reads as once an annotation patch has landed. */
  lemma AnnotationPatchEffect(doc: Doc, patch: Patch, overlay: map<Name, Json>)
    requires Stored(doc) && Flat(overlay) && patch.version == doc.version && patch.fields == map[]
    requires patch.ann == overlay || patch.ann == doc.ann + overlay
    ensures var after := Apply(doc, patch);
            && Stored(after) && after.fields == doc.fields
            && forall name :: Get(after.ann, name) == if name in overlay then overlay[name] else Get(doc.ann, name)
  {
    assert MergeMembers(doc.fields, map[]) == doc.fields;
    if patch.ann == doc.ann + overlay {
      OverlaidAnnotations(doc.ann, overlay);
    } else {
      var merged := MergeMembers(doc.ann, overlay);
      MergeMembersNullFree(doc.ann, overlay);
      forall name ensures Get(merged, name) == if name in overlay then overlay[name] else Get(doc.ann, name) {
        FlatMergeGet(doc.ann, overlay, name);
      }
      forall name | name in merged ensures !merged[name].Object? {
        assert Get(merged, name) == merged[name];
      }
    }
  }
}
