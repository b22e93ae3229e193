/** The worker's modes: at most one mode thread at work, a bounded export buffer and a bounded migration batch. */
module WorkerModes {
  import opened Wrappers

  const MAX_PAGES := 160
  const MAX_BYTES := 96 * 1024 * 1024
  const BATCH := 160

  datatype Mode = Normal | CpuSaturation | MemoryLeak

  // ----- What the lock guards -----

  /** `memory` holds the sizes of the retained pages. */
  datatype Shared = Shared(mode: Mode, memory: seq<nat>, bytes: nat, backlog: nat)

  function Sum(sizes: seq<nat>): nat {
    if sizes == [] then 0 else Sum(sizes[..|sizes| - 1]) + sizes[|sizes| - 1]
  }

  predicate Full(sh: Shared, size: nat) {
    |sh.memory| >= MAX_PAGES || sh.bytes + size > MAX_BYTES
  }

  function Retain(sh: Shared, size: nat): Shared {
    sh.(memory := sh.memory + [size], bytes := sh.bytes + size)
  }

  /** One record of the batch is done. */
  function Decrement(sh: Shared): Shared {
    sh.(backlog := if sh.backlog > 0 then sh.backlog - 1 else 0)
  }

  function Reset(mode: Mode): Shared {
    Shared(mode, [], 0, if mode.CpuSaturation? then BATCH else 0)
  }

  class WorkerState {
    var mode: Mode
    var memory: seq<nat>
    var bytes: nat
    var backlog: nat

    constructor ()
      ensures Now() == Reset(Normal)
    {
      mode, memory, bytes, backlog := Normal, [], 0, 0;
    }

    function Now(): Shared
      reads this
    {
      Shared(mode, memory, bytes, backlog)
    }

    /** The locked section of the buffer loop; false ends the thread. */
    method RetainPage(size: nat, stopped: bool) returns (goOn: bool)
      modifies this
      ensures goOn <==> !stopped && !Full(old(Now()), size)
      ensures Now() == if goOn then Retain(old(Now()), size) else old(Now())
    {
      if stopped { return false; }
      if |memory| >= MAX_PAGES || bytes + size > MAX_BYTES { return false; }
      memory := memory + [size];
      bytes := bytes + size;
      goOn := true;
    }

    method RecordMigrated(batchMode: Mode) returns (remaining: nat)
      modifies this
      ensures Now() == if batchMode.CpuSaturation? then Decrement(old(Now())) else old(Now())
      ensures remaining == backlog
    {
      remaining := backlog;
      if batchMode.CpuSaturation? && remaining > 0 {
        backlog := remaining - 1;
        remaining := backlog;
      }
    }

    /** The whole migration loop with nobody else at the lock, told to stop before its turn number `stopAt`. A turn
        after the last record finds the batch done and puts the mode back to normal. */
    method MigrateBatch(stopAt: nat) returns (passed: seq<nat>)
      requires mode.CpuSaturation? && backlog <= BATCH
      modifies this
      ensures |passed| == if stopAt < old(backlog) then stopAt else old(backlog)
      ensures forall i | 0 <= i < |passed| :: passed[i] == BATCH - old(backlog) + 1 + i
      ensures Now() == old(Now()).(backlog := old(backlog) - |passed|,
                                   mode := if stopAt > old(backlog) then Normal else CpuSaturation)
    {
      passed := [];
      while |passed| < stopAt
        invariant |passed| <= old(backlog) && |passed| <= stopAt
        invariant forall i | 0 <= i < |passed| :: passed[i] == BATCH - old(backlog) + 1 + i
        invariant Now() == old(Now()).(backlog := old(backlog) - |passed|)
        decreases backlog
      {
        if backlog == 0 {
          mode := Normal;
          return;
        }
        passed := passed + [BATCH - backlog + 1];
        var _ := RecordMigrated(mode);
      }
    }

    /** The locked section of `set_mode`, once the previous thread has stopped. */
    method Apply(newMode: Mode)
      modifies this
      ensures Now() == Reset(newMode)
    {
      mode, bytes, memory := newMode, 0, [];
      backlog := if newMode.CpuSaturation? then BATCH else 0;
    }

    /** The whole buffer loop with nobody else at the lock; page `i` is `pages[i]`, and the thread is told to stop
        before page `stopAt`. */
    method LeakMemory(pages: seq<nat>, stopAt: nat) returns (kept: nat)
      requires bytes == Sum(memory)
      modifies this
      ensures kept <= |pages| && kept <= stopAt
      ensures Now() == old(Now()).(memory := old(memory) + pages[..kept], bytes := Sum(old(memory) + pages[..kept]))
      ensures kept < |pages| && kept < stopAt ==> Full(Now(), pages[kept])
      ensures |old(memory)| <= MAX_PAGES && old(bytes) <= MAX_BYTES ==> |memory| <= MAX_PAGES && bytes <= MAX_BYTES
    {
      kept := 0;
      assert memory + pages[..0] == memory;
      while kept < |pages|
        invariant kept <= |pages| && kept <= stopAt
        invariant mode == old(mode) && backlog == old(backlog)
        invariant memory == old(memory) + pages[..kept] && bytes == Sum(old(memory) + pages[..kept])
        invariant |old(memory)| <= MAX_PAGES && old(bytes) <= MAX_BYTES ==> |memory| <= MAX_PAGES && bytes <= MAX_BYTES
      {
        NextPage(old(memory), pages, kept);
        var goOn := RetainPage(pages[kept], kept == stopAt);
        if !goOn { return; }
        kept := kept + 1;
      }
    }
  }

  lemma NextPage(memory: seq<nat>, pages: seq<nat>, kept: nat)
    requires kept < |pages|
    ensures memory + pages[..kept] + [pages[kept]] == memory + pages[..kept + 1]
    ensures Sum(memory + pages[..kept + 1]) == Sum(memory + pages[..kept]) + pages[kept]
  {
    OneMorePage(memory + pages[..kept], pages[kept]);
    assert memory + pages[..kept] + [pages[kept]] == memory + pages[..kept + 1];
  }

  lemma OneMorePage(memory: seq<nat>, size: nat)
    ensures Sum(memory + [size]) == Sum(memory) + size
  {
    assert (memory + [size])[..|memory|] == memory;
  }

  // ----- Threads -----

  /** The mode thread of one stop event. `Took(n)` and `Going(n)` are before migrating record `n` of the batch,
      `Passed` after it and before counting it; `Routine` migrates a record outside any batch. */
  datatype Worker =
    | Exporting | Buffering | Paging | Encoded(size: nat)
    | Migrating | Looking | Emptied | Took(n: nat) | Going(n: nat) | Passed | Routine | Dead

  /** `set_mode`, under the mode lock: it has set the stop event and waits for the thread, or is about to reset. */
  datatype Switcher = Ready | Stopping(mode: Mode) | Applying(mode: Mode)

  /** `event` numbers the current stop event. History since the last mode change: `passed`, the record numbers
      of the batch migrated, `done`, how many of them are counted, `refused`, whether a change was refused, and
      `overflow`, the size of the page that did not fit into the buffer. */
  datatype State = State(shared: Shared, event: nat, stopped: set<nat>, workers: map<nat, Worker>, switcher: Switcher,
                         passed: seq<nat>, done: nat, refused: bool, overflow: Option<nat>)

  datatype Step =
    | Ask(mode: Mode) | Join(timedOut: bool) | Restart
    | CheckStop(e: nat) | Encode(e: nat, size: nat) | Buffer(e: nat)
    | Snapshot(e: nat) | CheckGo(e: nat) | Migrate(e: nat) | CountDone(e: nat) | FinishBatch(e: nat)

  function Starting(mode: Mode): Worker {
    match mode
    case Normal => Exporting
    case CpuSaturation => Migrating
    case MemoryLeak => Buffering
  }

  predicate IsAt(s: State, e: nat, w: Worker) {
    e in s.workers && s.workers[e] == w
  }

  function Goes(s: State, e: nat, w: Worker): State {
    s.(workers := s.workers[e := w])
  }

  /** The guard at the head of each loop. */
  function Guarded(s: State, e: nat): State
    requires e in s.workers
  {
    match s.workers[e]
    case Exporting => if e in s.stopped then Goes(s, e, Dead) else s
    case Buffering => Goes(s, e, if e in s.stopped then Dead else Paging)
    case Migrating => Goes(s, e, if e in s.stopped then Dead else Looking)
    case _ => s
  }

  /** The locked read of the migration loop. */
  function SnapshotStep(s: State, e: nat): State {
    if !s.shared.mode.CpuSaturation? then Goes(s, e, Routine)
    else if s.shared.backlog == 0 then Goes(s, e, Emptied)
    else if s.shared.backlog <= BATCH then Goes(s, e, Took(BATCH - s.shared.backlog + 1))
    else s
  }

  function BufferStep(s: State, e: nat): State
    requires e in s.workers && s.workers[e].Encoded?
  {
    var size := s.workers[e].size;
    if e in s.stopped then Goes(s, e, Dead)
    else if Full(s.shared, size) then Goes(s, e, Dead).(overflow := Some(size))
    else Goes(s, e, Buffering).(shared := Retain(s.shared, size))
  }

  /** The batch is done: the mode goes back to normal and the thread goes on exporting. */
  function FinishStep(s: State, e: nat): State {
    if e == s.event && s.shared.mode.CpuSaturation? && s.shared.backlog == 0
    then Goes(s, e, Exporting).(shared := s.shared.(mode := Normal))
    else Goes(s, e, Dead)
  }

  /** A step that is not enabled does nothing. A thread that does not stop in time makes `set_mode` refuse. */
  function Next(s: State, step: Step): State {
    match step
    case Ask(mode) => if s.switcher.Ready? then s.(switcher := Stopping(mode), stopped := s.stopped + {s.event}) else s
    case Join(timedOut) =>
      if !s.switcher.Stopping? then s
      else if IsAt(s, s.event, Dead) then s.(switcher := Applying(s.switcher.mode))
      else if timedOut then s.(switcher := Ready, refused := true)
      else s
    case Restart =>
      if s.switcher.Applying? then
        State(Reset(s.switcher.mode), s.event + 1, s.stopped, s.workers[s.event + 1 := Starting(s.switcher.mode)],
            Ready, [], 0,
              false, None)
      else s
    case CheckStop(e) => if e in s.workers then Guarded(s, e) else s
    case Encode(e, size) => if IsAt(s, e, Paging) then Goes(s, e, Encoded(size)) else s
    case Buffer(e) => if e in s.workers && s.workers[e].Encoded? then BufferStep(s, e) else s
    case Snapshot(e) => if IsAt(s, e, Looking) then SnapshotStep(s, e) else s
    case CheckGo(e) =>
      if e in s.workers && s.workers[e].Took? then Goes(s, e, if e in s.stopped then Dead else Going(s.workers[e].n))
          else s
    case Migrate(e) =>
      if e in s.workers && s.workers[e].Going? then Goes(s, e, Passed).(passed := s.passed + [s.workers[e].n])
      else if IsAt(s, e, Routine) then Goes(s, e, Migrating)
      else s
    case CountDone(e) =>
      if IsAt(s, e, Passed) then Goes(s, e, Migrating).(shared := Decrement(s.shared), done := s.done + 1) else s
    case FinishBatch(e) => if IsAt(s, e, Emptied) then FinishStep(s, e) else s
  }

  function Exec(s: State, steps: seq<Step>): State
    decreases |steps|
  {
    if steps == [] then s else Exec(Next(s, steps[0]), steps[1..])
  }

  predicate Init(s: State) {
    s == State(Reset(Normal), 0, {}, map[0 := Exporting], Ready, [], 0, false, None)
  }

  // ----- Invariant -----

  function UpTo(n: nat): (r: seq<nat>)
    ensures |r| == n && forall i | 0 <= i < n :: r[i] == i + 1
  {
    if n == 0 then [] else UpTo(n - 1) + [n]
  }

  ghost predicate ThreadsInv(s: State) {
    && (forall e | e in s.workers :: e <= s.event) && s.event in s.workers
    && (forall e | e in s.workers && e < s.event :: s.workers[e].Dead?)
    && (!s.switcher.Ready? ==> s.event in s.stopped)
    && (s.switcher.Applying? ==> s.workers[s.event].Dead?)
  }

  /** Why the current thread is told to stop, and why it may have ended. */
  ghost predicate EndInv(s: State)
    requires s.event in s.workers
  {
    var w := s.workers[s.event];
    && (forall e | e in s.stopped :: e <= s.event)
    && (s.switcher.Ready? ==> (s.event in s.stopped <==> s.refused))
    && (w.Dead? ==> s.event in s.stopped || s.overflow.Some?)
    && (s.overflow.Some? ==> w.Dead? && s.shared.mode.MemoryLeak? && Full(s.shared, s.overflow.value))
    && (w.Buffering? || w.Paging? || w.Encoded? ==> s.shared.mode.MemoryLeak?)
    && (s.shared.mode.MemoryLeak? ==> w.Buffering? || w.Paging? || w.Encoded? || w.Dead?)
    && (w.Emptied? ==> s.shared.mode.CpuSaturation? && s.shared.backlog == 0)
  }

  ghost predicate BufferInv(s: State) {
    s.shared.bytes == Sum(s.shared.memory) && s.shared.bytes <= MAX_BYTES && |s.shared.memory| <= MAX_PAGES
  }

  /** The current batch, or none, and where its thread stands in it. */
  ghost predicate BatchInv(s: State)
    requires s.event in s.workers
  {
    var w := s.workers[s.event];
    && (s.shared.backlog + s.done == BATCH || (s.shared.backlog == 0 && s.done == 0 && !s.shared.mode.CpuSaturation?))
    && (s.shared.mode.CpuSaturation? ==> s.shared.backlog + s.done == BATCH)
    && s.passed == UpTo(s.done + if w.Passed? then 1 else 0)
    && (w.Took? || w.Going? ==> w.n == s.done + 1 && s.shared.backlog > 0)
    && (w.Passed? ==> s.shared.backlog > 0)
    && (w.Emptied? ==> s.shared.backlog == 0)
    && (w.Migrating? || w.Looking? || w.Emptied? || w.Took? || w.Going? || w.Passed? ==> s.shared.mode.CpuSaturation?)
    && (w.Exporting? || w.Buffering? || w.Paging? || w.Encoded? ==> !s.shared.mode.CpuSaturation?)
    && !w.Routine?
  }

  ghost predicate Inv(s: State) {
    ThreadsInv(s) && EndInv(s) && BufferInv(s) && BatchInv(s)
  }

  lemma ThreadsKept(s: State, step: Step)
    requires ThreadsInv(s)
    ensures ThreadsInv(Next(s, step))
  {
    if step.Ask? || step.Join? || step.Restart? {
      SwitchThreads(s, step);
    } else {
      OneThread(s, step);
    }
  }

  lemma SwitchThreads(s: State, step: Step)
    requires ThreadsInv(s) && (step.Ask? || step.Join? || step.Restart?)
    ensures ThreadsInv(Next(s, step))
  {
  }

  /** A step of one thread moves that thread alone, and not once it has ended. */
  lemma OneThread(s: State, step: Step)
    requires ThreadsInv(s) && !step.Ask? && !step.Join? && !step.Restart?
    ensures ThreadsInv(Next(s, step))
  {
    if step.Migrate? || step.CountDone? || step.FinishBatch? || step.Snapshot? {
      RecordShape(s, step);
    } else {
      PageShape(s, step);
    }
  }

  ghost predicate OneMoved(s: State, s': State, e: nat) {
    && s'.event == s.event && s'.switcher == s.switcher && s'.stopped == s.stopped
    && (s'.workers == s.workers || (e in s.workers && !s.workers[e].Dead? && e in s'.workers
        && s'.workers == s.workers[e := s'.workers[e]]))
  }

  lemma RecordShape(s: State, step: Step)
    requires step.Migrate? || step.CountDone? || step.FinishBatch? || step.Snapshot?
    ensures OneMoved(s, Next(s, step), step.e)
  {
  }

  lemma PageShape(s: State, step: Step)
    requires step.CheckStop? || step.Encode? || step.Buffer? || step.CheckGo?
    ensures OneMoved(s, Next(s, step), step.e)
  {
  }

  lemma BufferKept(s: State, step: Step)
    requires BufferInv(s)
    ensures BufferInv(Next(s, step))
  {
    if step.Buffer? && step.e in s.workers && s.workers[step.e].Encoded? {
      OneMorePage(s.shared.memory, s.workers[step.e].size);
    }
  }

  lemma BatchKept(s: State, step: Step)
    requires ThreadsInv(s) && BatchInv(s)
    ensures ThreadsInv(Next(s, step)) && BatchInv(Next(s, step))
  {
    ThreadsKept(s, step);
    match step
    case Migrate(e) => MigrateKept(s, e);
    case Snapshot(e) =>
    case CountDone(e) =>
    case _ => PlainKept(s, step);
  }

  lemma PlainKept(s: State, step: Step)
    requires ThreadsInv(s) && BatchInv(s) && ThreadsInv(Next(s, step))
    requires !step.Migrate? && !step.Snapshot? && !step.CountDone?
    ensures BatchInv(Next(s, step))
  {
    if step.CheckStop? || step.CheckGo? {
      ChecksKept(s, step);
    } else if step.Ask? || step.Join? || step.Restart? {
      SwitchKept(s, step);
    } else {
      PagesKept(s, step);
    }
  }

  lemma ChecksKept(s: State, step: Step)
    requires ThreadsInv(s) && BatchInv(s) && (step.CheckStop? || step.CheckGo?)
    ensures BatchInv(Next(s, step))
  {
    if step.e in s.workers {
      if step.CheckStop? {
        StopKept(s, step.e);
      } else if s.workers[step.e].Took? {
        GoKept(s, step.e);
      }
    }
  }

  lemma StopKept(s: State, e: nat)
    requires ThreadsInv(s) && BatchInv(s) && e in s.workers
    ensures BatchInv(Guarded(s, e))
  {
  }

  lemma GoKept(s: State, e: nat)
    requires ThreadsInv(s) && BatchInv(s) && e in s.workers && s.workers[e].Took?
    ensures BatchInv(Goes(s, e, if e in s.stopped then Dead else Going(s.workers[e].n)))
  {
  }

  lemma SwitchKept(s: State, step: Step)
    requires ThreadsInv(s) && BatchInv(s) && (step.Ask? || step.Join? || step.Restart?)
    ensures BatchInv(Next(s, step))
  {
  }

  lemma PagesKept(s: State, step: Step)
    requires ThreadsInv(s) && BatchInv(s) && (step.Encode? || step.Buffer? || step.FinishBatch?)
    ensures BatchInv(Next(s, step))
  {
    match step
    case Encode(e, size) => EncodeKept(s, e, size);
    case Buffer(e) => if e in s.workers && s.workers[e].Encoded? { PageKept(s, e); }
    case FinishBatch(e) => if IsAt(s, e, Emptied) { BatchFinished(s, e); }
  }

  lemma EncodeKept(s: State, e: nat, size: nat)
    requires ThreadsInv(s) && BatchInv(s)
    ensures BatchInv(Next(s, Encode(e, size)))
  {
  }

  lemma PageKept(s: State, e: nat)
    requires ThreadsInv(s) && BatchInv(s) && e in s.workers && s.workers[e].Encoded?
    ensures BatchInv(BufferStep(s, e))
  {
  }

  lemma BatchFinished(s: State, e: nat)
    requires ThreadsInv(s) && BatchInv(s) && IsAt(s, e, Emptied)
    ensures BatchInv(FinishStep(s, e))
  {
  }

  lemma MigrateKept(s: State, e: nat)
    requires ThreadsInv(s) && BatchInv(s)
    ensures BatchInv(Next(s, Migrate(e)))
  {
    if e in s.workers && s.workers[e].Going? {
      assert e == s.event;
      assert UpTo(s.done + 1) == UpTo(s.done) + [s.done + 1];
    }
  }

  lemma EndKept(s: State, step: Step)
    requires ThreadsInv(s) && EndInv(s) && BatchInv(s) && ThreadsInv(Next(s, step))
    ensures EndInv(Next(s, step))
  {
    if step.Ask? || step.Join? || step.Restart? {
      SwitchEnd(s, step);
    } else {
      ThreadEnd(s, step);
    }
  }

  lemma SwitchEnd(s: State, step: Step)
    requires ThreadsInv(s) && EndInv(s) && (step.Ask? || step.Join? || step.Restart?)
    ensures ThreadsInv(Next(s, step)) && EndInv(Next(s, step))
  {
  }

  lemma ThreadEnd(s: State, step: Step)
    requires ThreadsInv(s) && EndInv(s) && BatchInv(s) && !step.Ask? && !step.Join? && !step.Restart?
    ensures ThreadsInv(Next(s, step)) && EndInv(Next(s, step))
  {
    ThreadsKept(s, step);
    if step.CheckStop? || step.CheckGo? || step.Snapshot? {
      CheckEnd(s, step);
    } else {
      WorkEnd(s, step);
    }
  }

  lemma CheckEnd(s: State, step: Step)
    requires ThreadsInv(s) && EndInv(s) && BatchInv(s) && (step.CheckStop? || step.CheckGo? || step.Snapshot?)
    requires ThreadsInv(Next(s, step))
    ensures EndInv(Next(s, step))
  {
  }

  lemma WorkEnd(s: State, step: Step)
    requires ThreadsInv(s) && EndInv(s) && BatchInv(s) && ThreadsInv(Next(s, step))
    requires step.Encode? || step.Buffer? || step.Migrate? || step.CountDone? || step.FinishBatch?
    ensures EndInv(Next(s, step))
  {
  }

  lemma NextInv(s: State, step: Step)
    requires Inv(s)
    ensures Inv(Next(s, step))
  {
    ThreadsKept(s, step);
    EndKept(s, step);
    BufferKept(s, step);
    BatchKept(s, step);
  }

  lemma {:induction false} Reached(s: State, steps: seq<Step>)
    requires Inv(s)
    ensures Inv(Exec(s, steps))
    decreases |steps|
  {
    if steps != [] {
      NextInv(s, steps[0]);
      Reached(Next(s, steps[0]), steps[1..]);
    }
  }

  // ----- Main results -----

  /** In every run the bytes counted are the sizes of the retained pages, within both bounds. */
  lemma BufferIsBounded(s0: State, steps: seq<Step>)
    requires Init(s0)
    ensures var sh := Exec(s0, steps).shared;
            sh.bytes == Sum(sh.memory) && sh.bytes <= 100_663_296 && |sh.memory| <= 160
  {
    Reached(s0, steps);
  }

  lemma MemoryMoves(s: State, step: Step)
    requires ThreadsInv(s) && Next(s, step).shared.memory != s.shared.memory
    ensures step.Restart? || step == Buffer(s.event)
    ensures step.Restart? ==> Next(s, step).shared.memory == []
    ensures step == Buffer(s.event) ==> s.event !in s.stopped && s.workers[s.event].Encoded?
                                        && Next(s, step).shared == Retain(s.shared, s.workers[s.event].size)
  {
  }

  /** In every run the retained pages change only by one page of the current thread before it is told to stop, or
      by the reset of a mode change. */
  lemma OnlyTheCurrentThreadBuffers(s0: State, steps: seq<Step>, step: Step)
    requires Init(s0)
    ensures var s := Exec(s0, steps);
            var s' := Next(s, step);
            s'.shared.memory != s.shared.memory ==>
              || (step.Restart? && s'.shared.memory == [])
              || (step == Buffer(s.event) && s.event !in s.stopped && |s'.shared.memory| == |s.shared.memory| + 1
                  && s.shared.memory <= s'.shared.memory)
  {
    Reached(s0, steps);
    var s := Exec(s0, steps);
    if Next(s, step).shared.memory != s.shared.memory {
      MemoryMoves(s, step);
    }
  }

  lemma DeadStays(s: State, step: Step, e: nat)
    requires ThreadsInv(s) && IsAt(s, e, Dead) && e < s.event
    ensures IsAt(Next(s, step), e, Dead) && e < Next(s, step).event
  {
  }

  lemma {:induction false} OldThreadsStayDead(s: State, steps: seq<Step>, e: nat)
    requires ThreadsInv(s) && e in s.workers && e < s.event
    ensures IsAt(Exec(s, steps), e, Dead) && e < Exec(s, steps).event
    decreases |steps|
  {
    if steps != [] {
      ThreadsKept(s, steps[0]);
      DeadStays(s, steps[0], e);
      OldThreadsStayDead(Next(s, steps[0]), steps[1..], e);
    }
  }

  /** After a mode change no step of an earlier thread, at any later time, changes anything. */
  lemma EarlierThreadsAreOver(s: State, steps: seq<Step>, step: Step)
    requires Inv(s) && (step.CheckStop? || step.Encode? || step.Buffer? || step.Snapshot? || step.CheckGo?
            || step.Migrate?
                        || step.CountDone? || step.FinishBatch?)
    requires step.e in s.workers && step.e < s.event
    ensures Next(Exec(s, steps), step) == Exec(s, steps)
  {
    OldThreadsStayDead(s, steps, step.e);
  }

  /** In every run the batch has migrated the records 1, 2, 3, ... in order, each once and at most 160, and what
      is left and what is counted make 160; the mode goes back to normal by itself only after all 160. */
  lemma BatchInOrder(s0: State, steps: seq<Step>, step: Step)
    requires Init(s0)
    ensures var s := Exec(s0, steps);
            && s.passed == UpTo(|s.passed|) && |s.passed| <= 160
            && (s.shared.mode.CpuSaturation?
                ==> s.shared.backlog + s.done == 160 && s.done <= |s.passed| <= s.done + 1)
            && (s.shared.mode.CpuSaturation? && !step.Restart? && !Next(s, step).shared.mode.CpuSaturation?
                ==> s.passed == UpTo(160))
  {
    Reached(s0, steps);
  }

  // ----- A refused mode change -----

  /** How many more steps a stopped thread can take. */
  function Rank(w: Worker): nat {
    match w
    case Dead => 0
    case Paging => 2
    case Looking => 3
    case Emptied => 2
    case Going(_) => 3
    case Passed => 2
    case Routine => 2
    case _ => 1
  }

  /** A record that the thread is about to migrate, its last check behind it. */
  function InHand(w: Worker): nat {
    if w.Going? then 1 else 0
  }

  /** The thread's own next step; `size` is the next page. */
  function TurnOf(s: State, size: nat): Step
    requires s.event in s.workers
  {
    match s.workers[s.event]
    case Paging => Encode(s.event, size)
    case Encoded(_) => Buffer(s.event)
    case Looking => Snapshot(s.event)
    case Emptied => FinishBatch(s.event)
    case Took(_) => CheckGo(s.event)
    case Going(_) => Migrate(s.event)
    case Routine => Migrate(s.event)
    case Passed => CountDone(s.event)
    case _ => CheckStop(s.event)
  }

  /** `n` turns of the current thread. */
  function Turns(s: State, size: nat, n: nat): State
    requires s.event in s.workers
    decreases n
  {
    if n == 0 then s
    else
      var s' := Next(s, TurnOf(s, size));
      if s'.event in s'.workers then Turns(s', size, n - 1) else s'
  }

  /** How many of the steps change anything. */
  function Effects(s: State, steps: seq<Step>): nat
    decreases |steps|
  {
    if steps == [] then 0 else (if Next(s, steps[0]) != s then 1 else 0) + Effects(Next(s, steps[0]), steps[1..])
  }

  /** A mode change was refused, and none has been asked for since. */
  ghost predicate Refused(s: State) {
    Inv(s) && s.switcher.Ready? && s.refused
  }

  /** The stopped thread is nearer to its end, or nothing changed. */
  ghost predicate Nearer(s: State, s': State) {
    && s'.event == s.event && s'.switcher == s.switcher && s'.refused == s.refused
    && s.event in s.workers && s.event in s'.workers
    && (s' != s ==> Rank(s'.workers[s.event]) < Rank(s.workers[s.event]))
  }

  lemma RefusedCheck(s: State, step: Step)
    requires ThreadsInv(s) && s.switcher.Ready? && s.event in s.stopped
    requires step.CheckStop? || step.CheckGo? || step.Join? || step.Restart?
    ensures Nearer(s, Next(s, step))
  {
  }

  lemma RefusedPage(s: State, step: Step)
    requires ThreadsInv(s) && s.switcher.Ready? && s.event in s.stopped && (step.Encode? || step.Buffer?)
    ensures Nearer(s, Next(s, step))
  {
  }

  lemma RefusedRecord(s: State, step: Step)
    requires ThreadsInv(s) && s.switcher.Ready? && s.event in s.stopped
    requires step.Snapshot? || step.Migrate? || step.CountDone? || step.FinishBatch?
    ensures Nearer(s, Next(s, step))
  {
  }

  /** A step that changes anything is the stopped thread's, and brings it nearer to its end. */
  lemma RefusedRank(s: State, step: Step)
    requires ThreadsInv(s) && s.switcher.Ready? && s.event in s.stopped && !step.Ask?
    ensures Nearer(s, Next(s, step))
  {
    if step.CheckStop? || step.CheckGo? || step.Join? || step.Restart? {
      RefusedCheck(s, step);
    } else if step.Encode? || step.Buffer? {
      RefusedPage(s, step);
    } else {
      RefusedRecord(s, step);
    }
  }

  ghost predicate LittleMore(s: State, s': State)
    requires s.event in s.workers
  {
    && s'.shared.memory == s.shared.memory && s.passed <= s'.passed && s.event in s'.workers
    && |s'.passed| + InHand(s'.workers[s.event]) <= |s.passed| + InHand(s.workers[s.event])
  }

  lemma RefusedMigration(s: State, e: nat)
    requires ThreadsInv(s) && s.event in s.stopped
    ensures LittleMore(s, Next(s, Migrate(e)))
  {
  }

  lemma RefusedWait(s: State, step: Step)
    requires ThreadsInv(s) && s.switcher.Ready? && s.event in s.stopped && !step.Ask? && !step.Migrate?
    ensures LittleMore(s, Next(s, step))
  {
  }

  lemma RefusedWork(s: State, step: Step)
    requires ThreadsInv(s) && s.switcher.Ready? && s.event in s.stopped && !step.Ask?
    ensures LittleMore(s, Next(s, step))
  {
    if step.Migrate? {
      RefusedMigration(s, step.e);
    } else {
      RefusedWait(s, step);
    }
  }

  /** After a refusal only the stopped thread can still change anything, and only for a while. */
  lemma RefusedStep(s: State, step: Step)
    requires Refused(s) && !step.Ask?
    ensures var s' := Next(s, step);
            && Refused(s') && s'.event == s.event && s'.shared.memory == s.shared.memory && s.passed <= s'.passed
            && |s'.passed| + InHand(s'.workers[s.event]) <= |s.passed| + InHand(s.workers[s.event])
            && (s' != s ==> Rank(s'.workers[s.event]) < Rank(s.workers[s.event]))
  {
    NextInv(s, step);
    RefusedRank(s, step);
    RefusedWork(s, step);
  }

  /** And as long as it has not ended, its own next step is such a change. */
  lemma RefusedTurn(s: State, size: nat)
    requires Refused(s) && !s.workers[s.event].Dead?
    ensures Next(s, TurnOf(s, size)) != s && !TurnOf(s, size).Ask?
  {
  }

  /** After a refused mode change, whatever happens until the next one is asked for: no page is retained, at most
      one more record is migrated, at most three steps change anything, and the thread can always go on to its
      end until it has ended. */
  lemma RefusedThreadEnds(s: State, steps: seq<Step>, size: nat)
    requires Refused(s) && forall i | 0 <= i < |steps| :: !steps[i].Ask?
    ensures var t := Exec(s, steps);
            && Refused(t) && t.event == s.event && t.shared.memory == s.shared.memory
            && s.passed <= t.passed && |t.passed| <= |s.passed| + 1
            && Effects(s, steps) + Rank(t.workers[t.event]) <= Rank(s.workers[s.event]) <= 3
            && (!t.workers[t.event].Dead? ==> Next(t, TurnOf(t, size)) != t)
  {
    RefusedMeasure(s, steps);
    var t := Exec(s, steps);
    if !t.workers[t.event].Dead? {
      RefusedTurn(t, size);
    }
  }

  lemma {:induction false} RefusedMeasure(s: State, steps: seq<Step>)
    requires Refused(s) && forall i | 0 <= i < |steps| :: !steps[i].Ask?
    ensures var t := Exec(s, steps);
            && Refused(t) && t.event == s.event && t.shared.memory == s.shared.memory && s.passed <= t.passed
            && |t.passed| + InHand(t.workers[s.event]) <= |s.passed| + InHand(s.workers[s.event])
            && Effects(s, steps) + Rank(t.workers[t.event]) <= Rank(s.workers[s.event])
    decreases |steps|
  {
    if steps != [] {
      RefusedStep(s, steps[0]);
      RefusedMeasure(Next(s, steps[0]), steps[1..]);
    }
  }

  /** A run in which the refused change leaves a mode reported that nothing works for. */
  lemma RefusalStalls()
    ensures var s0 := State(Reset(Normal), 0, {}, map[0 := Exporting], Ready, [], 0, false, None);
            var s := Next(Next(Next(s0, Ask(MemoryLeak)), Join(true)), CheckStop(0));
            Init(s0) && s.switcher.Ready? && s.refused && s.shared.mode.Normal? && s.workers[s.event].Dead?
  {
  }

  lemma TurnStays(s: State, size: nat)
    requires ThreadsInv(s) && s.switcher.Ready?
    ensures var t := Next(s, TurnOf(s, size)); t.switcher.Ready? && t.event == s.event && t.refused == s.refused
  {
  }

  lemma {:induction false} TurnsEnd(s: State, size: nat, n: nat)
    requires Refused(s) && Rank(s.workers[s.event]) <= n
    ensures IsAt(Turns(s, size, n), s.event, Dead)
    decreases n
  {
    if s.workers[s.event].Dead? {
      DeadTurns(s, size, n);
    } else {
      RefusedTurn(s, size);
      RefusedStep(s, TurnOf(s, size));
      TurnsEnd(Next(s, TurnOf(s, size)), size, n - 1);
    }
  }

  lemma {:induction false} DeadTurns(s: State, size: nat, n: nat)
    requires s.event in s.workers && s.workers[s.event].Dead?
    ensures Turns(s, size, n) == s
    decreases n
  {
    if n > 0 {
      DeadTurns(s, size, n - 1);
    }
  }

  /** The page that the thread has in hand, or else takes up next, finds no room in the export buffer. */
  predicate NoRoom(s: State, size: nat)
    requires s.event in s.workers
  {
    var w := s.workers[s.event];
    s.shared.mode.MemoryLeak? && Full(s.shared, if w.Encoded? then w.size else size)
  }

  /** One turn leaves the thread of an unrefused buffer mode where the next page decides. */
  lemma LeakTurn(s: State, size: nat)
    requires Inv(s) && s.switcher.Ready? && !s.refused && s.shared.mode.MemoryLeak? && !s.workers[s.event].Dead?
    ensures var s', w := Next(s, TurnOf(s, size)), s.workers[s.event];
            && s'.event == s.event && !s'.refused && s'.shared.mode.MemoryLeak? && s.event in s'.workers
            && (w.Buffering? ==> s'.workers[s.event].Paging? && s'.shared == s.shared)
            && (w.Paging? ==> s'.workers[s.event] == Encoded(size) && s'.shared == s.shared)
            && (w.Encoded? && NoRoom(s, size) ==> s'.workers[s.event].Dead?)
            && (w.Encoded? && !NoRoom(s, size) ==> s'.workers[s.event].Buffering?)
  {
  }

  /** After one turn the thread has ended, has put a page away, or has the same decision before it. */
  lemma LeakNext(s: State, size: nat)
    requires Inv(s) && s.switcher.Ready? && !s.refused && s.shared.mode.MemoryLeak? && !s.workers[s.event].Dead?
    ensures var s' := Next(s, TurnOf(s, size));
            && Inv(s') && s'.switcher.Ready? && !s'.refused && s'.shared.mode.MemoryLeak? && s'.event == s.event
            && (!s.workers[s.event].Encoded? ==> !s'.workers[s.event].Dead? && (NoRoom(s', size) <==> NoRoom(s, size)))
  {
    NextInv(s, TurnOf(s, size));
    TurnStays(s, size);
    LeakTurn(s, size);
  }

  lemma LeakEncoded(s: State, size: nat)
    requires Inv(s) && s.switcher.Ready? && !s.refused && s.workers[s.event].Encoded?
    ensures IsAt(Turns(s, size, 1), s.event, Dead) <==> NoRoom(s, size)
    ensures IsAt(Turns(s, size, 2), s.event, Dead) <==> NoRoom(s, size)
    ensures IsAt(Turns(s, size, 3), s.event, Dead) <==> NoRoom(s, size)
  {
    LeakNext(s, size);
    LeakTurn(s, size);
    var s1 := Next(s, TurnOf(s, size));
    if NoRoom(s, size) {
      DeadTurns(s1, size, 0);
      DeadTurns(s1, size, 1);
      DeadTurns(s1, size, 2);
    } else {
      LeakNext(s1, size);
      LeakTurn(s1, size);
      var s2 := Next(s1, TurnOf(s1, size));
      LeakTurn(s2, size);
      OneTurn(s1, size);
      TwoTurns(s1, size);
    }
  }

  lemma OneTurn(s: State, size: nat)
    requires s.event in s.workers && s.event in Next(s, TurnOf(s, size)).workers
    requires Next(s, TurnOf(s, size)).event == s.event
    ensures Turns(s, size, 1) == Next(s, TurnOf(s, size))
  {
  }

  lemma TwoTurns(s: State, size: nat)
    requires s.event in s.workers
    requires var s' := Next(s, TurnOf(s, size)); s'.event == s.event && s.event in s'.workers
    requires var s' := Next(s, TurnOf(s, size));
             var s'' := Next(s', TurnOf(s', size)); s''.event == s.event && s.event in s''.workers
    ensures var s' := Next(s, TurnOf(s, size)); Turns(s, size, 2) == Next(s', TurnOf(s', size))
  {
    OneTurn(Next(s, TurnOf(s, size)), size);
  }

  /** Three turns bring the thread of an unrefused buffer mode past its next page. */
  lemma LeakTurns(s: State, size: nat)
    requires Inv(s) && s.switcher.Ready? && !s.refused && s.shared.mode.MemoryLeak? && !s.workers[s.event].Dead?
    ensures IsAt(Turns(s, size, 3), s.event, Dead) <==> NoRoom(s, size)
  {
    var s1 := Next(s, TurnOf(s, size));
    LeakNext(s, size);
    LeakTurn(s, size);
    match s.workers[s.event]
    case Encoded(_) => LeakEncoded(s, size);
    case Paging => LeakEncoded(s1, size);
    case Buffering =>
      LeakNext(s1, size);
      LeakTurn(s1, size);
      LeakEncoded(Next(s1, TurnOf(s1, size)), size);
    case _ => assert false;
  }

  /** A thread that only exports or migrates does not end by itself. */
  lemma {:induction false} OtherTurns(s: State, size: nat, n: nat)
    requires Inv(s) && s.switcher.Ready? && !s.refused && !s.shared.mode.MemoryLeak?
    ensures !IsAt(Turns(s, size, n), s.event, Dead)
    decreases n
  {
    if n > 0 {
      NextInv(s, TurnOf(s, size));
      TurnStays(s, size);
      OtherTurns(Next(s, TurnOf(s, size)), size, n - 1);
    }
  }

  /** In every run, whenever no mode change is under way: three turns on, the current thread has ended if and only
      if a change was refused since the last one that succeeded, or a page was too much for the export buffer, or
      the buffer mode is on and its next page has no room. All three are known before the turns. */
  lemma WorkEndsExactlyWhen(s0: State, steps: seq<Step>, size: nat)
    requires Init(s0) && Exec(s0, steps).switcher.Ready?
    ensures var s := Exec(s0, steps);
            && s.event in s.workers
            && (IsAt(Turns(s, size, 3), s.event, Dead) <==> s.refused || s.overflow.Some? || NoRoom(s, size))
            && (s.overflow.Some? ==> s.shared.mode.MemoryLeak? && Full(s.shared, s.overflow.value))
  {
    Reached(s0, steps);
    var s := Exec(s0, steps);
    if s.refused {
      TurnsEnd(s, size, 3);
    } else if s.workers[s.event].Dead? {
      DeadTurns(s, size, 3);
    } else if s.shared.mode.MemoryLeak? {
      LeakTurns(s, size);
    } else {
      OtherTurns(s, size, 3);
    }
  }

  // ----- A mode change that succeeds -----

  /** The thread that `set_mode` waits for gets nearer to its end with each of its own steps. */
  lemma StoppingTurn(s: State, size: nat)
    requires Inv(s) && s.switcher.Stopping? && !s.workers[s.event].Dead?
    ensures var s' := Next(s, TurnOf(s, size));
            && s'.event == s.event && s'.switcher == s.switcher && s'.stopped == s.stopped && s.event in s'.workers
            && Rank(s'.workers[s.event]) < Rank(s.workers[s.event])
  {
  }

  lemma {:induction false} StopsInTurns(s: State, size: nat, n: nat)
    requires Inv(s) && s.switcher.Stopping? && Rank(s.workers[s.event]) <= n
    ensures var t := Turns(s, size, n);
            IsAt(t, s.event, Dead) && t.event == s.event && t.switcher == s.switcher && t.stopped == s.stopped
    decreases n
  {
    if s.workers[s.event].Dead? {
      DeadTurns(s, size, n);
    } else {
      StoppingTurn(s, size);
      NextInv(s, TurnOf(s, size));
      StopsInTurns(Next(s, TurnOf(s, size)), size, n - 1);
    }
  }

  lemma JoinThenRestart(s: State)
    requires IsAt(s, s.event, Dead) && s.switcher.Stopping?
    ensures var t := Next(Next(s, Join(false)), Restart);
            && t.switcher == Ready && t.event == s.event + 1 && t.stopped == s.stopped && !t.refused
            && t.overflow.None? && t.passed == [] && t.done == 0
            && IsAt(t, t.event, match s.switcher.mode case Normal => Exporting
                                case CpuSaturation => Migrating case MemoryLeak => Buffering)
            && t.shared == Shared(s.switcher.mode, [], 0, if s.switcher.mode == CpuSaturation then 160 else 0)
  {
  }

  /** In every run, when no mode change is under way: a change asked for now goes through once the current thread has
      had at most three turns, and starts a thread of the new mode, not told to stop, on an empty buffer and a whole
      batch. */
  lemma ModeChangeSucceeds(s0: State, steps: seq<Step>, mode: Mode, size: nat)
    requires Init(s0) && Exec(s0, steps).switcher.Ready?
    ensures var s := Exec(s0, steps);
            var asked := Next(s, Ask(mode));
            && asked.event in asked.workers
            && var t := Next(Next(Turns(asked, size, 3), Join(false)), Restart);
               && t.switcher == Ready && t.event == s.event + 1 && t.event !in t.stopped && !t.refused
               && IsAt(t, t.event, match mode case Normal => Exporting
                                   case CpuSaturation => Migrating case MemoryLeak => Buffering)
               && t.shared == Shared(mode, [], 0, if mode == CpuSaturation then 160 else 0)
  {
    Reached(s0, steps);
    var s := Exec(s0, steps);
    var asked := Next(s, Ask(mode));
    NextInv(s, Ask(mode));
    assert asked.event == s.event && asked.switcher == Stopping(mode) && asked.stopped == s.stopped + {s.event};
    StopsInTurns(asked, size, 3);
    JoinThenRestart(Turns(asked, size, 3));
  }
}
