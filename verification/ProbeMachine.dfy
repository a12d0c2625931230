/** The crash and redelivery protocol of the SIGKILL probe worker, as a transition
    system: durable state (Redis fields, event lease, disposition provider) plus one
    volatile program counter for each task id. Every step performs at most one durable
    operation, so a kill between two steps is a kill between two durable operations. */
module ProbeMachine {
  import opened Basics

  /** Task ids; the lease owner id is "celery-" + task id, an injective renaming. */
  type TaskId = nat
  type Key = string

  datatype WritebackStatus =
    Pending | Sending | Accepted | Confirmed | Partial | Failed | Conflict | Unknown

  predicate Successful(w: WritebackStatus) {
    w.Accepted? || w.Confirmed?
  }

  datatype FaultPoint = AtAction | AtOutbox | AtReceipt | AtTerminal

  /** What one task was published with: its fault point and its idempotency key. */
  datatype Command = Command(point: FaultPoint, key: Key)

  /** An artifact that is created in one status and later moved to its last one:
      event processing/closed, action executing/success, job running/success. */
  datatype Artifact = Absent | Initial | Final

  datatype Outbox = NoOutbox | Leased | Delivered(latest: WritebackStatus)

  datatype Receipt = Receipt(key: Key, status: WritebackStatus)

  /** One request the provider saw: a new attempt stored under its key, a replay that was
      answered from the stored attempt, or a request it refused without storing anything. */
  datatype Post = Recorded(key: Key, status: WritebackStatus) | Replayed(key: Key) | Rejected(key: Key)

  datatype Provider = Provider(records: map<Key, WritebackStatus>, log: seq<Post>) {
    /** A disposition POST that reached the provider; it answers with records[key]. */
    function Submit(key: Key, status: WritebackStatus): Provider {
      if key in records then Provider(records, log + [Replayed(key)])
      else Provider(records[key := status], log + [Recorded(key, status)])
    }
  }

  datatype Durable = Durable(
    attempts: nat,
    workerAttempts: nat,
    event: Artifact,
    action: Artifact,
    job: Artifact,
    outbox: Outbox,
    receipt: Option<Receipt>,
    terminal: Option<WritebackStatus>,
    terminalWrites: nat,
    fired: set<FaultPoint>,
    markers: set<FaultPoint>,
    lease: Option<TaskId>,
    provider: Provider)

  /** What the network does with the request of the current step. */
  datatype Net =
    | Fine                            // the call completes; a POST is accepted
    | Fails                           // transport error before the provider acts
    | Answered(status: WritebackStatus)  // POST processed and answered
    | LostAfter(status: WritebackStatus) // POST processed, answer lost (timeout, 5xx, malformed body)
    | Refused                         // POST captured by the provider and refused (4xx, 409)
    | Invalid                         // command refused by the client before sending

  /** The next durable operation of a live delivery. */
  datatype Pc =
    | Idle
    | Cover | CountAttempt | PushAttempt | NoteBroker
    | GetOwner | Acquire
    | ReadEvent | OpenEvent | ReadTerminal | ReleaseReplay
    | ReadAction | OpenAction | LatchAction
    | ReadJob | OpenJob | ReadOutbox | OpenOutbox | LatchOutbox
    | ReadReceipt | Lookup | Send | LookupAfterLoss
    | LatchReceipt(got: WritebackStatus) | SaveReceipt(got: WritebackStatus)
    | CloseEvent(w: WritebackStatus) | FinishAction(w: WritebackStatus)
    | FinishJob(w: WritebackStatus) | FinishOutbox(w: WritebackStatus)
    | InsertTerminal(w: WritebackStatus) | CountTerminal | LatchTerminal
    | ReleaseFinal | ReadCount
    | Mark(point: FaultPoint) | Blocked(point: FaultPoint)

  predicate PastGate(pc: Pc) {
    match pc
    case Idle | Cover | CountAttempt | PushAttempt | NoteBroker | GetOwner | Acquire | ReadCount => false
    case _ => true
  }

  // ---- one step of a live delivery ----

  function StepEntry(d: Durable, pc: Pc, me: TaskId): (Durable, Pc) {
    match pc
    case Cover => (d, CountAttempt)
    case CountAttempt => (d.(attempts := d.attempts + 1), PushAttempt)
    case PushAttempt => (d.(workerAttempts := d.workerAttempts + 1), NoteBroker)
    case NoteBroker => (d, GetOwner)
    case GetOwner =>
      (d, if d.lease == None then Acquire else if d.lease == Some(me) then ReadEvent else Idle)
    case Acquire =>
      if d.lease == None then (d.(lease := Some(me)), ReadEvent) else (d, Idle)
    case _ => (d, Idle)
  }

  function Release(d: Durable, me: TaskId): Durable {
    if d.lease == Some(me) then d.(lease := None) else d
  }

  /** The one-shot latch: the first delivery at a point publishes a marker and blocks. */
  function Pause(d: Durable, point: FaultPoint, resume: Pc): (Durable, Pc) {
    if point in d.fired then (d, resume) else (d.(fired := d.fired + {point}), Mark(point))
  }

  function StepPrepare(d: Durable, pc: Pc, me: TaskId, cmd: Command): (Durable, Pc) {
    match pc
    case ReadEvent => (d, if d.event == Absent then OpenEvent else ReadTerminal)
    case OpenEvent => (d.(event := Initial), ReadTerminal)
    case ReadTerminal => (d, if d.terminal.Some? then ReleaseReplay else ReadAction)
    case ReleaseReplay => (Release(d, me), ReadCount)
    case ReadAction => (d, if d.action == Absent then OpenAction else AfterAction(cmd))
    case OpenAction => (d.(action := Initial), AfterAction(cmd))
    case LatchAction => Pause(d, AtAction, ReadJob)
    case ReadJob => (d, if d.job == Absent then OpenJob else ReadOutbox)
    case OpenJob => (d.(job := Initial), ReadOutbox)
    case ReadOutbox => (d, if d.outbox == NoOutbox then OpenOutbox else AfterOutbox(cmd))
    case OpenOutbox => (d.(outbox := Leased), AfterOutbox(cmd))
    case LatchOutbox => Pause(d, AtOutbox, ReadReceipt)
    case _ => (d, Idle)
  }

  function AfterAction(cmd: Command): Pc {
    if cmd.point == AtAction then LatchAction else ReadJob
  }

  function AfterOutbox(cmd: Command): Pc {
    if cmd.point == AtOutbox then LatchOutbox else ReadReceipt
  }

  function AfterReceipt(cmd: Command, got: WritebackStatus): Pc {
    if !Successful(got) then Idle
    else if cmd.point == AtReceipt then LatchReceipt(got)
    else SaveReceipt(got)
  }

  function AfterTerminal(cmd: Command): Pc {
    if cmd.point == AtTerminal then LatchTerminal else ReleaseFinal
  }

  function StepProvider(d: Durable, pc: Pc, cmd: Command, net: Net): (Durable, Pc) {
    match pc
    case ReadReceipt =>
      (d, if d.receipt == None then Lookup
          else if Successful(d.receipt.value.status) then CloseEvent(d.receipt.value.status)
          else Idle)
    case Lookup =>
      (d, if net == Fails then Idle
          else if cmd.key in d.provider.records then AfterReceipt(cmd, d.provider.records[cmd.key])
          else Send)
    case Send => StepSend(d, cmd, net)
    case LookupAfterLoss =>
      // An inconclusive or empty lookup yields an UNKNOWN receipt, which the worker refuses.
      (d, if net == Fails || cmd.key !in d.provider.records then Idle
          else AfterReceipt(cmd, d.provider.records[cmd.key]))
    case LatchReceipt(got) => Pause(d, AtReceipt, SaveReceipt(got))
    case SaveReceipt(got) => (d.(receipt := Some(Receipt(cmd.key, got))), CloseEvent(got))
    case _ => (d, Idle)
  }

  function StepSend(d: Durable, cmd: Command, net: Net): (Durable, Pc) {
    match net
    case Invalid => (d, Idle)
    case Refused => (d.(provider := Provider(d.provider.records, d.provider.log + [Rejected(cmd.key)])), Idle)
    case Fails => (d, LookupAfterLoss)
    case LostAfter(w) => (d.(provider := d.provider.Submit(cmd.key, w)), LookupAfterLoss)
    case Answered(w) => SendAnswered(d, cmd, w)
    case Fine => SendAnswered(d, cmd, Accepted)
  }

  function SendAnswered(d: Durable, cmd: Command, w: WritebackStatus): (Durable, Pc) {
    var p := d.provider.Submit(cmd.key, w);
    (d.(provider := p), AfterReceipt(cmd, p.records[cmd.key]))
  }

  function StepFinish(d: Durable, pc: Pc, me: TaskId, cmd: Command): (Durable, Pc) {
    match pc
    case CloseEvent(w) => (d.(event := Final), FinishAction(w))
    case FinishAction(w) => (d.(action := Final), FinishJob(w))
    case FinishJob(w) => (d.(job := Final), FinishOutbox(w))
    case FinishOutbox(w) => (d.(outbox := Delivered(w)), InsertTerminal(w))
    case InsertTerminal(w) =>
      if d.terminal == None then (d.(terminal := Some(w)), CountTerminal) else (d, AfterTerminal(cmd))
    case CountTerminal => (d.(terminalWrites := d.terminalWrites + 1), AfterTerminal(cmd))
    case LatchTerminal => Pause(d, AtTerminal, ReleaseFinal)
    case ReleaseFinal => (Release(d, me), ReadCount)
    case Mark(point) => (d.(markers := d.markers + {point}), Blocked(point))
    case _ => (d, Idle)
  }

  predicate InEntry(pc: Pc) {
    pc.Cover? || pc.CountAttempt? || pc.PushAttempt? || pc.NoteBroker? || pc.GetOwner? || pc.Acquire?
  }

  predicate InPrepare(pc: Pc) {
    || pc.ReadEvent? || pc.OpenEvent? || pc.ReadTerminal? || pc.ReleaseReplay?
    || pc.ReadAction? || pc.OpenAction? || pc.LatchAction?
    || pc.ReadJob? || pc.OpenJob? || pc.ReadOutbox? || pc.OpenOutbox? || pc.LatchOutbox?
  }

  predicate InProvider(pc: Pc) {
    || pc.ReadReceipt? || pc.Lookup? || pc.Send? || pc.LookupAfterLoss?
    || pc.LatchReceipt? || pc.SaveReceipt?
  }

  /** One durable operation of the delivery of task `me` that is about to execute `pc`.
      Raising an exception, returning and timing out all end the delivery (Idle). */
  function Step(d: Durable, pc: Pc, me: TaskId, cmd: Command, net: Net): (Durable, Pc) {
    if InEntry(pc) then StepEntry(d, pc, me)
    else if InPrepare(pc) then StepPrepare(d, pc, me, cmd)
    else if InProvider(pc) then StepProvider(d, pc, cmd, net)
    else StepFinish(d, pc, me, cmd)
  }

  // ---- whole runs ----

  /** Every task id has a program counter; tasks outside the map are Idle. */
  datatype State = State(d: Durable, pcs: map<TaskId, Pc>) {
    function At(t: TaskId): Pc {
      if t in pcs then pcs[t] else Idle
    }
  }

  datatype Label =
    | Deliver(t: TaskId)         // first delivery or redelivery, when none is live
    | Run(t: TaskId, net: Net)   // one step of the live delivery
    | Kill(t: TaskId)            // SIGKILL of the worker process
    | Expire                     // the lease TTL elapses
    | Lapse(point: FaultPoint)   // the TTL of a fault-point latch elapses

  function Next(cmds: TaskId -> Command, s: State, l: Label): State {
    match l
    case Deliver(t) => if s.At(t) == Idle then s.(pcs := s.pcs[t := Cover]) else s
    case Run(t, net) =>
      if s.At(t) == Idle then s
      else
        var r := Step(s.d, s.At(t), t, cmds(t), net);
        State(r.0, s.pcs[t := r.1])
    case Kill(t) => s.(pcs := s.pcs[t := Idle])
    case Expire => s.(d := s.d.(lease := None))
    case Lapse(p) => s.(d := s.d.(fired := s.d.fired - {p}))
  }

  function Exec(cmds: TaskId -> Command, s: State, ls: seq<Label>): State
    decreases |ls|
  {
    if ls == [] then s else Exec(cmds, Next(cmds, s, ls[0]), ls[1..])
  }

  const FRESH := Durable(0, 0, Absent, Absent, Absent, NoOutbox, None, None, 0, {}, {}, None,
                         Provider(map[], []))

  const START := State(FRESH, map[])

  lemma {:induction false} ExecAppend(cmds: TaskId -> Command, s: State, a: seq<Label>, b: seq<Label>)
    ensures Exec(cmds, s, a + b) == Exec(cmds, Exec(cmds, s, a), b)
    decreases |a|
  {
    if a == [] {
      assert a + b == b;
    } else {
      assert (a + b)[1..] == a[1..] + b;
      ExecAppend(cmds, Next(cmds, s, a[0]), a[1..], b);
    }
  }
}
