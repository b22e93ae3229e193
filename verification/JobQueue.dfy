/** The worker's import queue: validation of a document, and jobs that are completed in one transaction or kept. */
module JobQueue {
  import opened Wrappers

  const MAX_RECORDS := 5_000
  const MAX_SKU := 64
  const MAX_QUANTITY := 1_000_000_000
  const MAX_DESCRIPTION := 256
  const MAX_LOGGED_ATTEMPT := 1_000_000

  /** A decoded JSON value; `Float` stands for every number that is not an integer. */
  datatype Value =
    | Null | Bool(b: bool) | Int(n: int) | Float | Text(text: string)
    | List(items: seq<Value>) | Object(fields: map<string, Value>)

  datatype Record = Record(sku: string, quantity: int, description: string)

  // ----- Validation -----

  /** The characters that `str.strip` removes. */
  predicate Space(c: char) {
    || '\U{9}' <= c <= '\U{D}' || '\U{1C}' <= c <= '\U{20}' || c == '\U{85}' || c == '\U{A0}' || c == '\U{1680}'
    || '\U{2000}' <= c <= '\U{200A}' || c == '\U{2028}' || c == '\U{2029}' || c == '\U{202F}' || c == '\U{205F}'
        || c == '\U{3000}'
  }

  predicate Blank(s: string) {
    forall i | 0 <= i < |s| :: Space(s[i])
  }

  function Get(fields: map<string, Value>, name: string, otherwise: Value): Value {
    if name in fields then fields[name] else otherwise
  }

  /** A row that the importer accepts, and the record that it makes of it. */
  predicate ValidRow(row: Value) {
    && row.Object?
    && var sku, quantity := Get(row.fields, "sku", Null), Get(row.fields, "quantity", Null);
       && sku.Text? && !Blank(sku.text) && |sku.text| <= MAX_SKU
       && quantity.Int? && 0 <= quantity.n <= MAX_QUANTITY
       && Get(row.fields, "description", Text("")).Text?
  }

  function RecordOf(row: Value): Record
    requires ValidRow(row)
  {
    var description := Get(row.fields, "description", Text("")).text;
    Record(row.fields["sku"].text, row.fields["quantity"].n,
           if |description| <= MAX_DESCRIPTION then description else description[..MAX_DESCRIPTION])
  }

  /** The `records` list, or the document itself as the only row. */
  function Rows(fields: map<string, Value>): Value {
    Get(fields, "records", List([Object(fields)]))
  }

  predicate ValidDocument(fields: map<string, Value>) {
    var rows := Rows(fields);
    rows.List? && 1 <= |rows.items| <= MAX_RECORDS && forall i | 0 <= i < |rows.items| :: ValidRow(rows.items[i])
  }

  /** The rows of a document that has any. */
  function RowsOf(fields: map<string, Value>): seq<Value> {
    if "records" !in fields then [Object(fields)] else if fields["records"].List? then fields["records"].items else []
  }

  /** What the importer demands of a row: a sku with something in it, of at most 64 characters, a quantity from 0 to
      a billion, and a description, if any, that is a text. */
  ghost predicate GoodRow(row: Value) {
    && row.Object?
    && "sku" in row.fields && row.fields["sku"].Text? && |row.fields["sku"].text| <= 64
    && (exists i :: 0 <= i < |row.fields["sku"].text| && !Space(row.fields["sku"].text[i]))
    && "quantity" in row.fields && row.fields["quantity"].Int? && 0 <= row.fields["quantity"].n <= 1_000_000_000
    && ("description" in row.fields ==> row.fields["description"].Text?)
  }

  ghost predicate Importable(fields: map<string, Value>) {
    1 <= |RowsOf(fields)| <= 5_000 && forall i | 0 <= i < |RowsOf(fields)| :: GoodRow(RowsOf(fields)[i])
  }

  /** What a record says of its row: sku and quantity as they are, and the first 256 characters of the description. */
  ghost predicate RecordFor(row: Value, record: Record) {
    && row.Object?
    && "sku" in row.fields && row.fields["sku"] == Text(record.sku)
    && "quantity" in row.fields && row.fields["quantity"] == Int(record.quantity)
    && if "description" !in row.fields then record.description == ""
       else
         && row.fields["description"].Text? && record.description <= row.fields["description"].text
         && |record.description| == if |row.fields["description"].text| < 256 then |row.fields["description"].text|
             else 256
  }

  /** The batch of an importable document, record by record. */
  ghost predicate IsBatch(fields: map<string, Value>, batch: seq<Record>) {
    && Importable(fields) && |batch| == |RowsOf(fields)|
    && forall i | 0 <= i < |batch| :: RecordFor(RowsOf(fields)[i], batch[i])
  }

  lemma RowMeans(row: Value)
    ensures ValidRow(row) <==> GoodRow(row)
    ensures ValidRow(row) ==> RecordFor(row, RecordOf(row))
  {
  }

  lemma DocumentMeans(fields: map<string, Value>)
    ensures ValidDocument(fields) <==> Importable(fields)
    ensures ValidDocument(fields) ==> Rows(fields).items == RowsOf(fields)
  {
    forall row: Value ensures ValidRow(row) <==> GoodRow(row) {
      RowMeans(row);
    }
  }

  lemma BatchMeans(fields: map<string, Value>, batch: seq<Record>)
    requires ValidDocument(fields) && |batch| == |Rows(fields).items|
    requires forall i | 0 <= i < |batch| :: batch[i] == RecordOf(Rows(fields).items[i])
    ensures IsBatch(fields, batch)
  {
    DocumentMeans(fields);
    forall i | 0 <= i < |batch| ensures RecordFor(RowsOf(fields)[i], batch[i]) {
      RowMeans(Rows(fields).items[i]);
    }
  }

  /** A row determines its record, so a document determines its batch. */
  lemma BatchIsUnique(fields: map<string, Value>, batch: seq<Record>, other: seq<Record>)
    requires IsBatch(fields, batch) && IsBatch(fields, other)
    ensures batch == other
  {
    forall i | 0 <= i < |batch| ensures batch[i] == other[i] {
      assert RecordFor(RowsOf(fields)[i], batch[i]) && RecordFor(RowsOf(fields)[i], other[i]);
    }
  }

  method ValidatedRow(row: Value) returns (record: Option<Record>)
    ensures record == if ValidRow(row) then Some(RecordOf(row)) else None
  {
    if !row.Object? { return None; }
    var sku := Get(row.fields, "sku", Null);
    var quantity := Get(row.fields, "quantity", Null);
    var description := Get(row.fields, "description", Text(""));
    if !sku.Text? || Blank(sku.text) || |sku.text| > MAX_SKU { return None; }
    if !quantity.Int? || !(0 <= quantity.n <= MAX_QUANTITY) { return None; }
    if !description.Text? { return None; }
    var text := if |description.text| <= MAX_DESCRIPTION then description.text else description.text[..MAX_DESCRIPTION];
    record := Some(Record(sku.text, quantity.n, text));
  }

  /** `_validated_import_records`: the whole batch, or nothing. */
  method ValidatedImportRecords(fields: map<string, Value>) returns (batch: Option<seq<Record>>)
    ensures batch.Some? <==> Importable(fields)
    ensures batch.Some? ==> IsBatch(fields, batch.value)
  {
    var rows := Rows(fields);
    if !rows.List? || !(1 <= |rows.items| <= MAX_RECORDS) {
      DocumentMeans(fields);
      return None;
    }
    var validated: seq<Record> := [];
    var i := 0;
    while i < |rows.items|
      invariant 0 <= i <= |rows.items| && |validated| == i
      invariant forall k | 0 <= k < i :: ValidRow(rows.items[k]) && validated[k] == RecordOf(rows.items[k])
    {
      var record := ValidatedRow(rows.items[i]);
      if record.None? {
        DocumentMeans(fields);
        return None;
      }
      validated := validated + [record.value];
      i := i + 1;
    }
    DocumentMeans(fields);
    BatchMeans(fields, validated);
    batch := Some(validated);
  }

  // ----- The queue -----

  /** What decoding a payload comes to: a document, an error that the loop catches, or nesting so deep that decoding
      raises an error that it does not catch. */
  datatype Payload = Document(fields: map<string, Value>) | Malformed | TooDeep

  /** Only kind `import` is ever selected. */
  datatype Job = Job(isImport: bool, payload: Payload, owner: string)

  /** One delivery: the selected row is locked from SELECT to the end of its transaction. */
  datatype Delivery = Idle | Selected(id: nat) | Staged(id: nat, batch: seq<Record>)

  /** `records` are the committed rows, by job and record number. `lastId` is the last automatic key. History:
      `submitted` (every job ever), `completed` (jobs completed, in order) and `cancelled` (jobs deleted by
      recovery). */
  datatype State = State(jobs: map<nat, Job>, records: map<(nat, nat), Record>, delivery: Delivery, lastId: nat,
                         submitted: map<nat, Job>, completed: seq<nat>, cancelled: set<nat>)

  datatype Step =
    | Submit(job: Job)
    | Cancel(id: nat, owner: string)
    | Select(id: nat)
    | Stage(batch: seq<Record>)
    | Reject
    | Commit(applied: bool)
    | Abort

  predicate IsHead(jobs: map<nat, Job>, id: nat) {
    id in jobs && jobs[id].isImport && forall k | k in jobs && jobs[k].isImport :: id <= k
  }

  predicate Decodes(job: Job) {
    job.payload.Document? && ValidDocument(job.payload.fields)
  }

  /** The loop catches the error and goes on. */
  predicate IsRejected(job: Job) {
    !Decodes(job) && !job.payload.TooDeep?
  }

  function Numbered(id: nat, batch: seq<Record>): map<(nat, nat), Record> {
    map k | k in Keys(id, |batch|) :: batch[k.1 - 1]
  }

  function Keys(id: nat, count: nat): (keys: set<(nat, nat)>)
    ensures forall k :: k in keys <==> k.0 == id && 1 <= k.1 <= count
  {
    set n | 1 <= n <= count :: (id, n)
  }

  function Locked(delivery: Delivery): Option<nat> {
    match delivery
    case Idle => None
    case Selected(id) => Some(id)
    case Staged(id, _) => Some(id)
  }

  /** A step that is not enabled does nothing. A cancellation waits for the row lock. */
  function Next(s: State, step: Step): State {
    match step
    case Submit(job) =>
      s.(jobs := s.jobs[s.lastId + 1 := job], lastId := s.lastId + 1, submitted := s.submitted[s.lastId + 1 := job])
    case Cancel(id, owner) =>
      if id in s.jobs && s.jobs[id].owner == owner && Locked(s.delivery) != Some(id)
      then s.(jobs := s.jobs - {id}, cancelled := s.cancelled + {id}) else s
    case Select(id) => if s.delivery.Idle? && IsHead(s.jobs, id) then s.(delivery := Selected(id)) else s
    case Stage(batch) =>
      if s.delivery.Selected? && s.delivery.id in s.jobs && Decodes(s.jobs[s.delivery.id])
         && BatchOf(s.jobs[s.delivery.id]) == batch && (forall k | k in Keys(s.delivery.id, |batch|) :: k !in s.records)
      then s.(delivery := Staged(s.delivery.id, batch)) else s
    case Reject =>
      if s.delivery.Selected? && s.delivery.id in s.jobs && IsRejected(s.jobs[s.delivery.id])
      then s.(delivery := Idle) else s
    case Commit(applied) =>
      if !s.delivery.Staged? then s
      else if !applied then s.(delivery := Idle)
      else
        s.(jobs := s.jobs - {s.delivery.id}, records := s.records + Numbered(s.delivery.id, s.delivery.batch),
           delivery := Idle, completed := s.completed + [s.delivery.id])
    case Abort => s.(delivery := Idle)
  }

  /** The batch of a job that decodes. */
  function BatchOf(job: Job): (r: seq<Record>)
    requires Decodes(job)
    ensures IsBatch(job.payload.fields, r)
  {
    var rows := Rows(job.payload.fields).items;
    var batch := seq(|rows|, i requires 0 <= i < |rows| => RecordOf(rows[i]));
    BatchMeans(job.payload.fields, batch);
    batch
  }

  function Exec(s: State, steps: seq<Step>): State
    decreases |steps|
  {
    if steps == [] then s else Exec(Next(s, steps[0]), steps[1..])
  }

  predicate Init(s: State) {
    s == State(map[], map[], Idle, s.lastId, map[], [], {})
  }

  // ----- Invariant -----

  ghost predicate HistoryInv(s: State) {
    && (forall id | id in s.jobs ::
        id in s.submitted && s.submitted[id] == s.jobs[id] && id !in s.completed && id !in s.cancelled)
    && (forall id | id in s.submitted :: id <= s.lastId && (id in s.jobs || id in s.completed || id in s.cancelled))
    && (forall id | id in s.completed ::
        id in s.submitted && id !in s.cancelled && s.submitted[id].isImport && Decodes(s.submitted[id]))
    && (forall id | id in s.cancelled :: id in s.submitted && id !in s.completed)
    && (forall i, j | 0 <= i < j < |s.completed| :: s.completed[i] < s.completed[j])
    && (forall id, k | id in s.completed && k in s.jobs && s.jobs[k].isImport :: id < k)
  }

  /** The rows of a job are its batch, numbered from 1, complete and nothing else. */
  ghost predicate Holds(records: map<(nat, nat), Record>, id: nat, batch: seq<Record>) {
    forall n: nat :: ((id, n) in records <==> 1 <= n <= |batch|)
        && (1 <= n <= |batch| ==> records[(id, n)] == batch[n - 1])
  }

  ghost predicate RecordsInv(s: State) {
    && (forall k | k in s.records :: k.0 in s.completed)
    && (forall id | id in s.completed ::
          id in s.submitted && Decodes(s.submitted[id]) && Holds(s.records, id, BatchOf(s.submitted[id])))
  }

  ghost predicate DeliveryInv(s: State) {
    match s.delivery
    case Idle => true
    case Selected(id) => IsHead(s.jobs, id)
    case Staged(id, batch) => IsHead(s.jobs, id) && Decodes(s.jobs[id]) && batch == BatchOf(s.jobs[id])
  }

  ghost predicate Inv(s: State) {
    HistoryInv(s) && RecordsInv(s) && DeliveryInv(s)
  }

  lemma CommitHistory(s: State)
    requires Inv(s) && s.delivery.Staged?
    ensures HistoryInv(Next(s, Commit(true)))
  {
    CommitShape(s);
    HistoryAfter(s, Next(s, Commit(true)), s.delivery.id);
  }

  lemma HistoryAfter(s: State, s': State, id: nat)
    requires HistoryInv(s) && IsHead(s.jobs, id) && Decodes(s.jobs[id])
    requires s'.jobs == s.jobs - {id} && s'.completed == s.completed + [id]
    requires s'.submitted == s.submitted && s'.cancelled == s.cancelled && s'.lastId == s.lastId
    ensures HistoryInv(s')
  {
    Ascends(s.completed, id);
  }

  lemma CommitShape(s: State)
    requires s.delivery.Staged?
    ensures var s' := Next(s, Commit(true));
            && s'.jobs == s.jobs - {s.delivery.id} && s'.completed == s.completed + [s.delivery.id]
            && s'.submitted == s.submitted && s'.cancelled == s.cancelled && s'.lastId == s.lastId
  {
  }

  lemma Ascends(ids: seq<nat>, id: nat)
    requires forall i, j | 0 <= i < j < |ids| :: ids[i] < ids[j]
    requires forall k | k in ids :: k < id
    ensures var more := ids + [id]; forall i, j | 0 <= i < j < |more| :: more[i] < more[j]
  {
    var more := ids + [id];
    forall i, j | 0 <= i < j < |more| ensures more[i] < more[j] {
      assert more[i] in ids;
    }
  }

  lemma Inserted(records: map<(nat, nat), Record>, id: nat, batch: seq<Record>)
    requires forall k | k in records :: k.0 != id
    ensures Holds(records + Numbered(id, batch), id, batch)
  {
    var after := records + Numbered(id, batch);
    forall n: nat ensures ((id, n) in after <==> 1 <= n <= |batch|)
        && (1 <= n <= |batch| ==> after[(id, n)] == batch[n - 1]) {
      assert (id, n) !in records;
      assert (id, n) in Keys(id, |batch|) <==> 1 <= n <= |batch|;
    }
  }

  lemma InsertedElsewhere(records: map<(nat, nat), Record>, id: nat, batch: seq<Record>, other: nat, rows: seq<Record>)
    requires other != id && Holds(records, other, rows)
    ensures Holds(records + Numbered(id, batch), other, rows)
  {
    var after := records + Numbered(id, batch);
    forall n: nat ensures ((other, n) in after <==> 1 <= n <= |rows|)
        && (1 <= n <= |rows| ==> after[(other, n)] == rows[n - 1]) {
      assert (other, n) !in Keys(id, |batch|);
      assert (other, n) in records <==> 1 <= n <= |rows|;
    }
  }

  lemma CommitRecords(s: State)
    requires Inv(s) && s.delivery.Staged?
    ensures RecordsInv(Next(s, Commit(true)))
  {
    var id, s' := s.delivery.id, Next(s, Commit(true));
    assert s'.records == s.records + Numbered(id, s.delivery.batch) && s'.completed == s.completed + [id];
    forall k | k in s'.records ensures k.0 in s'.completed {
      assert k in s.records || k in Keys(id, |s.delivery.batch|);
    }
    forall c | c in s'.completed
      ensures c in s'.submitted && Decodes(s'.submitted[c]) && Holds(s'.records, c, BatchOf(s'.submitted[c]))
    {
      if c == id {
        Inserted(s.records, id, s.delivery.batch);
      } else {
        InsertedElsewhere(s.records, id, s.delivery.batch, c, BatchOf(s.submitted[c]));
      }
    }
  }

  /** Submissions get the highest id; cancellations spare the locked row. */
  lemma OutsideStep(s: State, step: Step)
    requires Inv(s) && (step.Submit? || step.Cancel?)
    ensures HistoryInv(Next(s, step)) && DeliveryInv(Next(s, step))
  {
  }

  lemma SubmittedRecords(s: State, job: Job)
    requires HistoryInv(s) && RecordsInv(s)
    ensures RecordsInv(Next(s, Submit(job)))
  {
    assert forall id | id in s.completed :: id != s.lastId + 1;
  }

  lemma NextInv(s: State, step: Step)
    requires Inv(s)
    ensures Inv(Next(s, step))
  {
    match step
    case Submit(job) => OutsideStep(s, step); SubmittedRecords(s, job);
    case Cancel(_, _) => OutsideStep(s, step); assert RecordsInv(Next(s, step));
    case Commit(applied) =>
      if s.delivery.Staged? && applied {
        CommitHistory(s);
        CommitRecords(s);
      }
    case _ =>
  }

  lemma {:induction false} ExecInv(s: State, steps: seq<Step>)
    requires Inv(s)
    ensures Inv(Exec(s, steps))
    decreases |steps|
  {
    if steps != [] {
      NextInv(s, steps[0]);
      ExecInv(Next(s, steps[0]), steps[1..]);
    }
  }

  /** In every run a job that recovery did not delete has left the table exactly when it was completed, and then
      its complete validated batch, and nothing else, is committed under its id; any other job has no records. */
  lemma GoneIffCommitted(s0: State, steps: seq<Step>)
    requires Init(s0)
    ensures var s := Exec(s0, steps);
            && (forall id | id in s.submitted && id !in s.cancelled ::
                  id !in s.jobs <==> exists n: nat :: (id, n) in s.records)
            && (forall id | id in s.submitted && id !in s.cancelled && id !in s.jobs ::
                  && Decodes(s.submitted[id]) && IsBatch(s.submitted[id].payload.fields, BatchOf(s.submitted[id]))
                  && Holds(s.records, id, BatchOf(s.submitted[id])))
            && (forall id, n: nat | id in s.submitted && (id in s.jobs || id in s.cancelled) :: (id, n) !in s.records)
  {
    ExecInv(s0, steps);
    var s := Exec(s0, steps);
    forall id | id in s.submitted && id !in s.cancelled ensures id !in s.jobs
        <==> exists n: nat :: (id, n) in s.records {
      if id !in s.jobs {
        assert (id, 1) in s.records;
      }
    }
  }

  /** A job comes in under an id above every earlier one. */
  lemma JobsComeIn(s: State, job: Job)
    requires Inv(s)
    ensures var s' := Next(s, Submit(job));
            && (forall id | id in s.submitted :: id < s'.lastId)
            && s'.jobs == s.jobs[s'.lastId := job] && s'.submitted == s.submitted[s'.lastId := job]
  {
  }

  /** A job goes only by the commit of its own delivery or by a cancellation of its owner, which always gets rid of a
      job that no delivery holds. */
  lemma JobsGo(s: State, step: Step, id: nat)
    requires Inv(s) && id in s.jobs
    ensures id in Next(s, step).jobs || step == Cancel(id, s.jobs[id].owner)
            || (step == Commit(true) && s.delivery.Staged? && s.delivery.id == id)
    ensures s.delivery.Idle? || s.delivery.id != id ==> id !in Next(s, Cancel(id, s.jobs[id].owner)).jobs
  {
  }

  /** Inserting the batch of a selected job never meets an existing row. */
  lemma StagingNeverCollides(s: State)
    requires Inv(s) && s.delivery.Selected? && Decodes(s.jobs[s.delivery.id])
    ensures Next(s, Stage(BatchOf(s.jobs[s.delivery.id]))).delivery
            == Staged(s.delivery.id, BatchOf(s.jobs[s.delivery.id]))
  {
    var id := s.delivery.id;
    forall k | k in Keys(id, |BatchOf(s.jobs[id])|) ensures k !in s.records {
      assert k.0 == id && id !in s.completed;
    }
  }

  predicate Blocked(s: State, head: nat) {
    IsHead(s.jobs, head) && !Decodes(s.jobs[head])
  }

  lemma BlockedStep(s: State, step: Step, head: nat)
    requires DeliveryInv(s) && HistoryInv(s) && Blocked(s, head) && !(step.Cancel? && step.id == head)
    ensures var t := Next(s, step);
            Blocked(t, head) && t.jobs[head] == s.jobs[head] && t.completed == s.completed && t.records == s.records
  {
  }

  /** A job that does not decode stays at the head, without records, and nothing is completed until it is cancelled. */
  lemma {:induction false} UndecodableHeadBlocks(s: State, steps: seq<Step>, head: nat)
    requires Inv(s) && Blocked(s, head)
    requires forall i | 0 <= i < |steps| :: !(steps[i].Cancel? && steps[i].id == head)
    ensures var t := Exec(s, steps);
            && Blocked(t, head) && t.jobs[head] == s.jobs[head] && t.completed == s.completed && t.records == s.records
            && forall n: nat :: (head, n) !in t.records
    decreases |steps|
  {
    assert head !in s.completed;
    if steps != [] {
      NextInv(s, steps[0]);
      BlockedStep(s, steps[0], head);
      UndecodableHeadBlocks(Next(s, steps[0]), steps[1..], head);
    }
  }

  /** Import jobs are completed in the order of their ids: each was the oldest left when it was completed. */
  lemma OldestFirst(s0: State, steps: seq<Step>)
    requires Init(s0)
    ensures var s := Exec(s0, steps);
            && (forall i, j | 0 <= i < j < |s.completed| :: s.completed[i] < s.completed[j])
            && (forall id, k | id in s.completed && k in s.submitted && s.submitted[k].isImport && k < id ::
                  k in s.completed || k in s.cancelled)
  {
    ExecInv(s0, steps);
  }

  // ----- One delivery of the worker -----

  datatype Fault = NoFault | InsertFails | CommitFails(applied: bool)

  /** `_last_delivery_job_id` and `_delivery_attempt`. */
  datatype Attempts = Attempts(last: Option<nat>, count: nat)

  function AfterDelivery(a: Attempts, id: nat): Attempts {
    if a.last == Some(id) then a.(count := if a.count + 1 <= MAX_LOGGED_ATTEMPT then a.count + 1
        else MAX_LOGGED_ATTEMPT)
    else Attempts(Some(id), 1)
  }

  /** The tables and the worker's counters. */
  datatype Progress = Progress(jobs: map<nat, Job>, records: map<(nat, nat), Record>, attempts: Attempts,
      completed: nat, rejections: nat)

  /** How a poll ends: the loop goes on, it goes on after a rejection, or an error leaves the loop and with it the
      process. */
  datatype Ending = Quiet | Rejection | Escape

  /** One poll of the queue. */
  function PollOutcome(p: Progress, head: Option<nat>, fault: Fault): (Progress, Ending)
    requires head.Some? ==> head.value in p.jobs
  {
    if head.None? then (p.(attempts := Attempts(None, 0)), Quiet)
    else
      var id := head.value;
      var tried := p.(attempts := AfterDelivery(p.attempts, id));
      if p.jobs[id].payload.TooDeep? then (tried, Escape)
      else if IsRejected(p.jobs[id]) then (tried.(rejections := p.rejections + 1), Rejection)
      else if fault.InsertFails? || (fault.CommitFails? && !fault.applied) then (tried, Quiet)
      else
        var taken := tried.(jobs := p.jobs - {id}, records := p.records + Numbered(id, BatchOf(p.jobs[id])));
        (if fault.NoFault? then taken.(attempts := Attempts(None, 0), completed := p.completed + 1) else taken, Quiet)
  }

  /** The committed rows with those of one more batch, numbered from 1. */
  ghost predicate WithBatch(before: map<(nat, nat), Record>, id: nat, batch: seq<Record>,
          after: map<(nat, nat), Record>) {
    && (forall k: (nat, nat) :: k in after <==> k in before || (k.0 == id && 1 <= k.1 <= |batch|))
    && (forall k: (nat, nat) | k in after ::
          after[k] == if k.0 == id && 1 <= k.1 <= |batch| then batch[k.1 - 1] else before[k])
  }

  lemma NumberedMeans(records: map<(nat, nat), Record>, id: nat, batch: seq<Record>)
    ensures WithBatch(records, id, batch, records + Numbered(id, batch))
  {
  }

  /** The poll commits the job: it is importable, and the commit takes effect. */
  ghost predicate Taken(job: Job, fault: Fault) {
    job.payload.Document? && Importable(job.payload.fields) && (fault.NoFault? || fault == CommitFails(true))
  }

  /** What one poll of a selected job does to the tables: an importable job leaves the queue exactly when its commit
      takes effect, and its batch comes with it; otherwise both tables stay as they are. */
  lemma PollMeans(p: Progress, id: nat, fault: Fault)
    requires id in p.jobs
    ensures var job, after := p.jobs[id], PollOutcome(p, Some(id), fault).0;
            if Taken(job, fault) then
              after.jobs == p.jobs - {id} && exists batch ::
                IsBatch(job.payload.fields, batch) && WithBatch(p.records, id, batch, after.records)
            else after.jobs == p.jobs && after.records == p.records
  {
    var job := p.jobs[id];
    if job.payload.Document? {
      DocumentMeans(job.payload.fields);
    }
    if Taken(job, fault) {
      NumberedMeans(p.records, id, BatchOf(job));
      assert IsBatch(job.payload.fields, BatchOf(job));
      assert PollOutcome(p, Some(id), fault).0.records == p.records + Numbered(id, BatchOf(job));
    }
  }

  /** And to the counters: a completion and a rejection count, an escape ends the process, and a delivery of the same
      job as before is one more attempt, up to a million. */
  lemma PollCounts(p: Progress, id: nat, fault: Fault)
    requires id in p.jobs
    ensures var job, (after, ending) := p.jobs[id], PollOutcome(p, Some(id), fault);
            var done := Taken(job, fault) && fault.NoFault?;
            && after.completed == p.completed + (if done then 1 else 0)
            && after.rejections == p.rejections + (if ending.Rejection? then 1 else 0)
            && (ending.Escape? <==> job.payload.TooDeep?)
            && (ending.Rejection? <==>
                  job.payload.Malformed? || (job.payload.Document? && !Importable(job.payload.fields)))
            && after.attempts == (if done then Attempts(None, 0)
                else if p.attempts.last != Some(id) then Attempts(Some(id), 1)
                else Attempts(Some(id), if p.attempts.count >= 1_000_000 then 1_000_000 else p.attempts.count + 1))
  {
    if p.jobs[id].payload.Document? {
      DocumentMeans(p.jobs[id].payload.fields);
    }
  }

  /** A new worker process over the same tables. */
  function Restarted(p: Progress): Progress {
    Progress(p.jobs, p.records, Attempts(None, 0), 0, 0)
  }

  /** Successive polls that select the same job, as long as it is there; a process that ends is started again. */
  function Polls(p: Progress, id: nat, faults: seq<Fault>): Progress
    decreases |faults|
  {
    if faults == [] || id !in p.jobs then p
    else
      var (after, ending) := PollOutcome(p, Some(id), faults[0]);
      Polls(if ending.Escape? then Restarted(after) else after, id, faults[1..])
  }

  function Capped(n: nat): nat {
    if n <= MAX_LOGGED_ATTEMPT then n else MAX_LOGGED_ATTEMPT
  }

  lemma {:induction false} RejectionsAreCounted(p: Progress, id: nat, faults: seq<Fault>, before: nat)
    requires IsHead(p.jobs, id) && IsRejected(p.jobs[id])
    requires if before == 0 then p.attempts.last != Some(id) else p.attempts == Attempts(Some(id), Capped(before))
    ensures var after, n := Polls(p, id, faults), before + |faults|;
            && IsHead(after.jobs, id) && after.jobs == p.jobs && after.records == p.records
            && after.completed == p.completed
            && after.rejections == p.rejections + |faults|
            && (faults != [] ==> after.attempts == Attempts(Some(id), Capped(n)))
    decreases |faults|
  {
    if faults != [] {
      RejectionsAreCounted(PollOutcome(p, Some(id), faults[0]).0, id, faults[1..], before + 1);
    }
  }

  lemma {:induction false} EscapesAreForgotten(p: Progress, id: nat, faults: seq<Fault>)
    requires IsHead(p.jobs, id) && p.jobs[id].payload.TooDeep?
    ensures Polls(p, id, faults) == if faults == [] then p else Restarted(p)
    decreases |faults|
  {
    if faults != [] {
      EscapesAreForgotten(Restarted(p), id, faults[1..]);
    }
  }

  /** A job that does not decode is selected at every poll, whatever else fails, and the tables stay as they are.
      Its deliveries are counted, up to the cap, and the next one is logged as a redelivery, if and only if the loop
      catches the decoding error; otherwise every delivery ends the process, and each is logged as the first. */
  lemma AttemptsCountDeliveries(p: Progress, id: nat, faults: seq<Fault>)
    requires IsHead(p.jobs, id) && !Decodes(p.jobs[id]) && p.attempts.last != Some(id) && faults != []
    ensures var after, caught := Polls(p, id, faults), !p.jobs[id].payload.TooDeep?;
            && IsHead(after.jobs, id)
            && after == (if caught then p.(attempts := Attempts(Some(id), Capped(|faults|)),
                    rejections := p.rejections + |faults|) else Restarted(p))
            && (AfterDelivery(after.attempts, id).count > 1 <==> caught)
            && AfterDelivery(after.attempts, id).count == if caught then Capped(|faults| + 1) else 1
  {
    if p.jobs[id].payload.TooDeep? {
      EscapesAreForgotten(p, id, faults);
    } else {
      RejectionsAreCounted(p, id, faults, 0);
    }
  }

  /** The steps of one poll that selects a job. */
  function PollSteps(job: Job, id: nat, fault: Fault): seq<Step> {
    if IsRejected(job) then [Select(id), Reject]
    else if job.payload.TooDeep? || fault.InsertFails? then [Select(id), Abort]
    else [Select(id), Stage(BatchOf(job)), Commit(fault.NoFault? || fault.applied)]
  }

  lemma TwoSteps(s: State, a: Step, b: Step)
    ensures Exec(s, [a, b]) == Next(Next(s, a), b)
  {
    assert [a, b][1..] == [b];
    assert Exec(Next(s, a), [b]) == Exec(Next(Next(s, a), b), []);
  }

  lemma ThreeSteps(s: State, a: Step, b: Step, c: Step)
    ensures Exec(s, [a, b, c]) == Next(Next(Next(s, a), b), c)
  {
    assert [a, b, c][1..] == [b, c];
    TwoSteps(Next(s, a), b, c);
  }

  /** A poll is a run of the queue, so the results about every run cover it. */
  lemma PollIsARun(s: State, p: Progress, id: nat, fault: Fault)
    requires Inv(s) && s.delivery.Idle? && IsHead(s.jobs, id) && p.jobs == s.jobs && p.records == s.records
    ensures var after, polled := Exec(s, PollSteps(s.jobs[id], id, fault)), PollOutcome(p, Some(id), fault).0;
            after.jobs == polled.jobs && after.records == polled.records && after.delivery.Idle?
  {
    if IsRejected(s.jobs[id]) || s.jobs[id].payload.TooDeep? || fault.InsertFails? {
      LeftIsARun(s, id, if IsRejected(s.jobs[id]) then Reject else Abort);
    } else {
      NextInv(s, Select(id));
      StagingNeverCollides(Next(s, Select(id)));
      TakenIsARun(s, id, fault.NoFault? || fault.applied);
    }
  }

  lemma LeftIsARun(s: State, id: nat, last: Step)
    requires s.delivery.Idle? && IsHead(s.jobs, id)
    requires last == if IsRejected(s.jobs[id]) then Reject else Abort
    ensures Exec(s, [Select(id), last]) == s
  {
    TwoSteps(s, Select(id), last);
  }

  lemma TakenIsARun(s: State, id: nat, applied: bool)
    requires s.delivery.Idle? && IsHead(s.jobs, id) && Decodes(s.jobs[id])
    requires Next(Next(s, Select(id)), Stage(BatchOf(s.jobs[id]))).delivery == Staged(id, BatchOf(s.jobs[id]))
    ensures var batch := BatchOf(s.jobs[id]);
            var after := Exec(s, [Select(id), Stage(batch), Commit(applied)]);
            && after.delivery.Idle?
            && after.jobs == (if applied then s.jobs - {id} else s.jobs)
            && after.records == (if applied then s.records + Numbered(id, batch) else s.records)
  {
    ThreeSteps(s, Select(id), Stage(BatchOf(s.jobs[id])), Commit(applied));
  }

  class ImportWorker {
    var jobs: map<nat, Job>
    var records: map<(nat, nat), Record>
    var attempts: Attempts
    var completed: nat
    var poisonRetries: nat

    constructor (jobs: map<nat, Job>)
      ensures this.jobs == jobs && records == map[] && attempts == Attempts(None, 0) && completed == 0
              && poisonRetries == 0
    {
      this.jobs, records, attempts, completed, poisonRetries := jobs, map[], Attempts(None, 0), 0, 0;
    }

    /** The INSERTs of one batch, still uncommitted. */
    method StagedRows(id: nat, batch: seq<Record>) returns (staged: map<(nat, nat), Record>)
      ensures staged == records + Numbered(id, batch)
    {
      staged := records;
      var i := 0;
      while i < |batch|
        invariant 0 <= i <= |batch| && staged == records + Numbered(id, batch[..i])
      {
        staged := staged[(id, i + 1) := batch[i]];
        assert Numbered(id, batch[..i + 1]) == Numbered(id, batch[..i])[(id, i + 1) := batch[i]];
        i := i + 1;
      }
      assert batch[..|batch|] == batch;
    }

    function Now(): Progress
      reads this
    {
      Progress(jobs, records, attempts, completed, poisonRetries)
    }

    /** One turn of `_job_loop`; `head` is what the SELECT returns. */
    method Poll(head: Option<nat>, fault: Fault) returns (ending: Ending)
      requires head.Some? ==> IsHead(jobs, head.value)
      modifies this
      ensures (Now(), ending) == PollOutcome(old(Now()), head, fault)
    {
      if head.None? {
        attempts := Attempts(None, 0);
        return Quiet;
      }
      var id := head.value;
      attempts := AfterDelivery(attempts, id);
      if jobs[id].payload.TooDeep? {
        return Escape;
      }
      var batch := None;
      if jobs[id].payload.Document? {
        batch := ValidatedImportRecords(jobs[id].payload.fields);
      }
      if batch.None? {
        poisonRetries := poisonRetries + 1;
        return Rejection;
      }
      BatchIsUnique(jobs[id].payload.fields, batch.value, BatchOf(jobs[id]));
      ending := Quiet;
      if fault.InsertFails? { return; }
      var staged := StagedRows(id, batch.value);
      if fault.CommitFails? && !fault.applied { return; }
      jobs, records := jobs - {id}, staged;
      if fault.NoFault? {
        attempts := Attempts(None, 0);
        completed := completed + 1;
      }
    }
  }
}
