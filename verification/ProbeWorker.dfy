/** The probe worker itself: the body of one delivery as statements over the Redis fields it
    updates, proved to do what the transition system's undisturbed delivery does. */
module ProbeWorker {
  import opened Basics
  import opened ProbeMachine
  import opened ProbeDrive

  datatype Outcome =
    | Completed(terminalWrites: nat)
    | Raised
    | BlockedAt(point: FaultPoint)

  /** What the last program counter of a delivery means to its caller. */
  ghost predicate Ends(out: Outcome, pc: Pc, d: Durable) {
    match out
    case Completed(n) => pc == ReadCount && n == d.terminalWrites
    case Raised => pc == Idle
    case BlockedAt(p) => pc == Blocked(p)
  }

  /** How the provider part ends: a successful receipt, a block at the receipt latch, an exception. */
  datatype Fetched = Got(status: WritebackStatus) | Stopped | Refusal

  lemma DriveLatch(d: Durable, pc: Pc, point: FaultPoint, resume: Pc, me: TaskId, cmd: Command, w: Weather)
    requires !Halted(pc) && Step(d, pc, me, cmd, w(pc)) == Pause(d, point, resume)
    ensures Drive(d, pc, me, cmd, w) ==
            if point in d.fired then Drive(d, resume, me, cmd, w)
            else (d.(fired := d.fired + {point}, markers := d.markers + {point}), Blocked(point))
  {
    if point !in d.fired {
      var e := d.(fired := d.fired + {point});
      DriveStep(d, pc, e, Mark(point), me, cmd, w);
      DriveStep(e, Mark(point), e.(markers := e.markers + {point}), Blocked(point), me, cmd, w);
    }
  }

  /** The shared Redis hash, the lease key and the provider behind its HTTP endpoint. */
  class Probe {
    var attempts: nat
    var workerAttempts: nat
    var event: Artifact
    var action: Artifact
    var job: Artifact
    var outbox: Outbox
    var receipt: Option<Receipt>
    var terminal: Option<WritebackStatus>
    var terminalWrites: nat
    var fired: set<FaultPoint>
    var markers: set<FaultPoint>
    var lease: Option<TaskId>
    var provider: Provider

    ghost function Snapshot(): Durable
      reads this
    {
      Durable(attempts, workerAttempts, event, action, job, outbox, receipt, terminal,
              terminalWrites, fired, markers, lease, provider)
    }

    constructor ()
      ensures Snapshot() == FRESH
    {
      attempts, workerAttempts, terminalWrites := 0, 0, 0;
      event, action, job, outbox := Absent, Absent, Absent, NoOutbox;
      receipt, terminal, lease := None, None, None;
      fired, markers := {}, {};
      provider := Provider(map[], []);
    }

    method ReleaseLease(me: TaskId)
      modifies this
      ensures Snapshot() == Release(old(Snapshot()), me)
    {
      if lease == Some(me) {
        lease := None;
      }
    }

    /** The one-shot latch and its marker; true when this delivery now blocks. */
    method PauseAt(point: FaultPoint) returns (blocks: bool)
      modifies this
      ensures blocks <==> point !in old(fired)
      ensures Snapshot() == if blocks
                            then old(Snapshot()).(fired := old(fired) + {point}, markers := old(markers) + {point})
                            else old(Snapshot())
    {
      blocks := point !in fired;
      if blocks {
        fired := fired + {point};
        markers := markers + {point};
      }
    }

    /** Counts the attempt and takes the lease; false when another owner holds it. */
    method Enter(me: TaskId) returns (ok: bool)
      modifies this
      ensures ok <==> old(lease) == None || old(lease) == Some(me)
      ensures Snapshot() == if ok then Entered(old(Snapshot()), me) else Counted(old(Snapshot()))
    {
      attempts := attempts + 1;
      workerAttempts := workerAttempts + 1;
      if lease == None {
        lease := Some(me);
      }
      ok := lease == Some(me);
    }

    /** Opens the event if needed and looks for a terminal of an earlier delivery. */
    method OpenCase(me: TaskId, cmd: Command, w: Weather) returns (replay: bool)
      modifies this
      ensures terminal == old(terminal)
      ensures replay <==> old(terminal).Some?
      ensures Drive(old(Snapshot()), ReadEvent, me, cmd, w) ==
              if replay then (Snapshot(), ReadCount) else Drive(Snapshot(), ReadAction, me, cmd, w)
    {
      ghost var start := Snapshot();
      if event == Absent {
        DriveStep(start, ReadEvent, start, OpenEvent, me, cmd, w);
        event := Initial;
        DriveStep(start, OpenEvent, Snapshot(), ReadTerminal, me, cmd, w);
      } else {
        DriveStep(start, ReadEvent, start, ReadTerminal, me, cmd, w);
      }
      replay := terminal.Some?;
      ghost var here := Snapshot();
      if replay {
        DriveStep(here, ReadTerminal, here, ReleaseReplay, me, cmd, w);
        ReleaseLease(me);
        DriveStep(here, ReleaseReplay, Snapshot(), ReadCount, me, cmd, w);
      } else {
        DriveStep(here, ReadTerminal, here, ReadAction, me, cmd, w);
      }
    }

    method PrepareAction(me: TaskId, cmd: Command, w: Weather) returns (stopped: bool)
      modifies this
      ensures terminal == old(terminal)
      ensures Drive(old(Snapshot()), ReadAction, me, cmd, w) ==
              if stopped then (Snapshot(), Blocked(AtAction)) else Drive(Snapshot(), ReadJob, me, cmd, w)
    {
      ghost var start := Snapshot();
      if action == Absent {
        DriveStep(start, ReadAction, start, OpenAction, me, cmd, w);
        action := Initial;
        DriveStep(start, OpenAction, Snapshot(), AfterAction(cmd), me, cmd, w);
      } else {
        DriveStep(start, ReadAction, start, AfterAction(cmd), me, cmd, w);
      }
      stopped := false;
      if cmd.point == AtAction {
        DriveLatch(Snapshot(), LatchAction, AtAction, ReadJob, me, cmd, w);
        stopped := PauseAt(AtAction);
      }
    }

    method PrepareJob(me: TaskId, cmd: Command, w: Weather)
      modifies this
      ensures terminal == old(terminal)
      ensures Drive(old(Snapshot()), ReadJob, me, cmd, w) == Drive(Snapshot(), ReadOutbox, me, cmd, w)
    {
      ghost var start := Snapshot();
      if job == Absent {
        DriveStep(start, ReadJob, start, OpenJob, me, cmd, w);
        job := Initial;
        DriveStep(start, OpenJob, Snapshot(), ReadOutbox, me, cmd, w);
      } else {
        DriveStep(start, ReadJob, start, ReadOutbox, me, cmd, w);
      }
    }

    method PrepareOutbox(me: TaskId, cmd: Command, w: Weather) returns (stopped: bool)
      modifies this
      ensures terminal == old(terminal)
      ensures Drive(old(Snapshot()), ReadOutbox, me, cmd, w) ==
              if stopped then (Snapshot(), Blocked(AtOutbox)) else Drive(Snapshot(), ReadReceipt, me, cmd, w)
    {
      ghost var start := Snapshot();
      if outbox == NoOutbox {
        DriveStep(start, ReadOutbox, start, OpenOutbox, me, cmd, w);
        outbox := Leased;
        DriveStep(start, OpenOutbox, Snapshot(), AfterOutbox(cmd), me, cmd, w);
      } else {
        DriveStep(start, ReadOutbox, start, AfterOutbox(cmd), me, cmd, w);
      }
      stopped := false;
      if cmd.point == AtOutbox {
        DriveLatch(Snapshot(), LatchOutbox, AtOutbox, ReadReceipt, me, cmd, w);
        stopped := PauseAt(AtOutbox);
      }
    }

    /** The adapter's submit: a status, or None for an exception. A lost answer is looked up by
        key; only an inconclusive or empty lookup yields UNKNOWN. It never sends twice. */
    method Submit(cmd: Command, send: Net, after: Net) returns (status: Option<WritebackStatus>)
      modifies this
      ensures Snapshot() == old(Snapshot()).(provider := provider)
      ensures
        if send == Invalid || send == Fails then provider == old(provider)
        else |provider.log| == |old(provider.log)| + 1 && provider.log[..|old(provider.log)|] == old(provider.log)
      ensures status == None <==> send == Invalid || send == Refused
      ensures status.Some? && status.value != Unknown ==>
                cmd.key in provider.records && status.value == provider.records[cmd.key]
      ensures StepSend(old(Snapshot()), cmd, send) ==
              if send == Fails || send.LostAfter? then (Snapshot(), LookupAfterLoss)
              else (Snapshot(), if status == None then Idle else AfterReceipt(cmd, status.value))
      ensures send == Fails || send.LostAfter? ==>
                StepProvider(Snapshot(), LookupAfterLoss, cmd, after) == (Snapshot(), AfterReceipt(cmd, status.value))
    {
      match send {
        case Invalid =>
          status := None;
        case Refused =>
          provider := Provider(provider.records, provider.log + [Rejected(cmd.key)]);
          status := None;
        case Fails =>
          status := UnknownAfterLoss(cmd, after);
        case LostAfter(s) =>
          provider := provider.Submit(cmd.key, s);
          status := UnknownAfterLoss(cmd, after);
        case Answered(s) =>
          provider := provider.Submit(cmd.key, s);
          status := Some(provider.records[cmd.key]);
        case Fine =>
          provider := provider.Submit(cmd.key, Accepted);
          status := Some(provider.records[cmd.key]);
      }
    }

    /** After a lost answer the caller gets a status, never an exception, and nothing is sent or stored. A status
        other than UNKNOWN is one the provider stored under the key; a POST that was recorded is found again by a
        lookup that gets through; and a lookup that fails settles nothing. */
    method UnknownAfterLoss(cmd: Command, after: Net) returns (status: Option<WritebackStatus>)
      ensures status.Some?
      ensures status.value != Unknown ==> cmd.key in provider.records && provider.records[cmd.key] == status.value
      ensures cmd.key in provider.records && status.value != provider.records[cmd.key] ==> after == Fails
      ensures after == Fails ==> !Successful(status.value)
    {
      if after != Fails && cmd.key in provider.records {
        status := Some(provider.records[cmd.key]);
      } else {
        status := Some(Unknown);
      }
    }

    /** Asks the provider: first for what it stored under the key, then by submitting. */
    method Ask(me: TaskId, cmd: Command, w: Weather) returns (status: Option<WritebackStatus>)
      modifies this
      ensures Snapshot() == old(Snapshot()).(provider := provider)
      ensures Drive(old(Snapshot()), Lookup, me, cmd, w) ==
              if status == None then (Snapshot(), Idle)
              else Drive(Snapshot(), AfterReceipt(cmd, status.value), me, cmd, w)
    {
      ghost var start := Snapshot();
      if w(Lookup) == Fails {
        DriveStep(start, Lookup, start, Idle, me, cmd, w);
        return None;
      }
      if cmd.key in provider.records {
        status := Some(provider.records[cmd.key]);
        DriveStep(start, Lookup, start, AfterReceipt(cmd, status.value), me, cmd, w);
        return;
      }
      DriveStep(start, Lookup, start, Send, me, cmd, w);
      status := Post(me, cmd, w);
    }

    method Post(me: TaskId, cmd: Command, w: Weather) returns (status: Option<WritebackStatus>)
      modifies this
      ensures Snapshot() == old(Snapshot()).(provider := provider)
      ensures Drive(old(Snapshot()), Send, me, cmd, w) ==
              if status == None then (Snapshot(), Idle)
              else Drive(Snapshot(), AfterReceipt(cmd, status.value), me, cmd, w)
    {
      ghost var start := Snapshot();
      status := Submit(cmd, w(Send), w(LookupAfterLoss));
      if w(Send) == Fails || w(Send).LostAfter? {
        DriveStep(start, Send, Snapshot(), LookupAfterLoss, me, cmd, w);
        DriveStep(Snapshot(), LookupAfterLoss, Snapshot(), AfterReceipt(cmd, status.value), me, cmd, w);
      } else {
        DriveStep(start, Send, Snapshot(), if status == None then Idle else AfterReceipt(cmd, status.value), me, cmd, w);
      }
    }

    /** Obtains a receipt: the durable one, or the provider's, which it then makes durable. */
    method Fetch(me: TaskId, cmd: Command, w: Weather) returns (got: Fetched)
      modifies this
      ensures Drive(old(Snapshot()), ReadReceipt, me, cmd, w) ==
              match got
              case Got(s) => Drive(Snapshot(), CloseEvent(s), me, cmd, w)
              case Stopped => (Snapshot(), Blocked(AtReceipt))
              case Refusal => (Snapshot(), Idle)
      ensures got.Got? ==> got.status == Accepted || got.status == Confirmed
      ensures got.Got? ==> receipt.Some? && receipt.value.status == got.status
      ensures terminal == old(terminal)
    {
      ghost var start := Snapshot();
      if receipt.Some? {
        if !Successful(receipt.value.status) {
          DriveStep(start, ReadReceipt, start, Idle, me, cmd, w);
          return Refusal;
        }
        DriveStep(start, ReadReceipt, start, CloseEvent(receipt.value.status), me, cmd, w);
        return Got(receipt.value.status);
      }
      DriveStep(start, ReadReceipt, start, Lookup, me, cmd, w);
      var status := Ask(me, cmd, w);
      if status == None || !Successful(status.value) {
        return Refusal;
      }
      got := KeepReceipt(me, cmd, w, status.value);
    }

    method KeepReceipt(me: TaskId, cmd: Command, w: Weather, s: WritebackStatus) returns (got: Fetched)
      requires Successful(s)
      modifies this
      ensures Drive(old(Snapshot()), AfterReceipt(cmd, s), me, cmd, w) ==
              if got == Stopped then (Snapshot(), Blocked(AtReceipt)) else Drive(Snapshot(), CloseEvent(s), me, cmd, w)
      ensures got == Stopped || (got == Got(s) && receipt == Some(Receipt(cmd.key, s)))
      ensures terminal == old(terminal)
    {
      if cmd.point == AtReceipt {
        DriveLatch(Snapshot(), LatchReceipt(s), AtReceipt, SaveReceipt(s), me, cmd, w);
        var stopped := PauseAt(AtReceipt);
        if stopped {
          return Stopped;
        }
      }
      ghost var here := Snapshot();
      receipt := Some(Receipt(cmd.key, s));
      DriveStep(here, SaveReceipt(s), Snapshot(), CloseEvent(s), me, cmd, w);
      got := Got(s);
    }

    method CloseCase(me: TaskId, cmd: Command, w: Weather, s: WritebackStatus)
      modifies this
      ensures terminal == old(terminal)
      ensures Drive(old(Snapshot()), CloseEvent(s), me, cmd, w) == Drive(Snapshot(), FinishJob(s), me, cmd, w)
    {
      ghost var d0 := Snapshot();
      event := Final;
      ghost var d1 := Snapshot();
      DriveStep(d0, CloseEvent(s), d1, FinishAction(s), me, cmd, w);
      action := Final;
      DriveStep(d1, FinishAction(s), Snapshot(), FinishJob(s), me, cmd, w);
    }

    method CloseDelivery(me: TaskId, cmd: Command, w: Weather, s: WritebackStatus)
      modifies this
      ensures terminal == old(terminal)
      ensures Drive(old(Snapshot()), FinishJob(s), me, cmd, w) == Drive(Snapshot(), InsertTerminal(s), me, cmd, w)
    {
      ghost var d0 := Snapshot();
      job := Final;
      ghost var d1 := Snapshot();
      DriveStep(d0, FinishJob(s), d1, FinishOutbox(s), me, cmd, w);
      outbox := Delivered(s);
      DriveStep(d1, FinishOutbox(s), Snapshot(), InsertTerminal(s), me, cmd, w);
    }

    method WriteTerminal(me: TaskId, cmd: Command, w: Weather, s: WritebackStatus)
      modifies this
      ensures terminal == if old(terminal) == None then Some(s) else old(terminal)
      ensures Drive(old(Snapshot()), InsertTerminal(s), me, cmd, w) == Drive(Snapshot(), AfterTerminal(cmd), me, cmd, w)
    {
      ghost var d0 := Snapshot();
      if terminal == None {
        terminal := Some(s);
        ghost var d1 := Snapshot();
        DriveStep(d0, InsertTerminal(s), d1, CountTerminal, me, cmd, w);
        terminalWrites := terminalWrites + 1;
        DriveStep(d1, CountTerminal, Snapshot(), AfterTerminal(cmd), me, cmd, w);
      } else {
        DriveStep(d0, InsertTerminal(s), d0, AfterTerminal(cmd), me, cmd, w);
      }
    }

    /** The terminal latch, then the lease; true when the delivery blocks instead. */
    method Leave(me: TaskId, cmd: Command, w: Weather) returns (stopped: bool)
      modifies this
      ensures terminal == old(terminal)
      ensures Drive(old(Snapshot()), AfterTerminal(cmd), me, cmd, w) ==
              (Snapshot(), if stopped then Blocked(AtTerminal) else ReadCount)
    {
      if cmd.point == AtTerminal {
        DriveLatch(Snapshot(), LatchTerminal, AtTerminal, ReleaseFinal, me, cmd, w);
        stopped := PauseAt(AtTerminal);
        if stopped {
          return;
        }
      }
      ghost var here := Snapshot();
      ReleaseLease(me);
      DriveStep(here, ReleaseFinal, Snapshot(), ReadCount, me, cmd, w);
      stopped := false;
    }

    /** Closes every artifact, event first, inserts and counts the terminal, and leaves. */
    method Finish(me: TaskId, cmd: Command, w: Weather, s: WritebackStatus) returns (stopped: bool)
      modifies this
      ensures terminal == if old(terminal) == None then Some(s) else old(terminal)
      ensures Drive(old(Snapshot()), CloseEvent(s), me, cmd, w) ==
              (Snapshot(), if stopped then Blocked(AtTerminal) else ReadCount)
    {
      CloseCase(me, cmd, w, s);
      CloseDelivery(me, cmd, w, s);
      WriteTerminal(me, cmd, w, s);
      stopped := Leave(me, cmd, w);
    }

    /** One delivery from entry to its return, exception or block. */
    method RunProbe(me: TaskId, cmd: Command, w: Weather) returns (out: Outcome)
      modifies this
      ensures Snapshot() == Drive(old(Snapshot()), Cover, me, cmd, w).0
      ensures Ends(out, Drive(old(Snapshot()), Cover, me, cmd, w).1, Snapshot())
      ensures out.Completed? ==> terminal.Some?
      ensures terminal != old(terminal) ==>
                old(terminal) == None && (terminal == Some(Accepted) || terminal == Some(Confirmed))
    {
      ghost var start := Snapshot();
      var ok := Enter(me);
      if !ok {
        DriveTurnedAway(start, me, cmd, w);
        return Raised;
      }
      DriveEnters(start, me, cmd, w);
      var replay := OpenCase(me, cmd, w);
      if replay {
        return Completed(terminalWrites);
      }
      var stopped := PrepareAction(me, cmd, w);
      if stopped {
        return BlockedAt(AtAction);
      }
      PrepareJob(me, cmd, w);
      stopped := PrepareOutbox(me, cmd, w);
      if stopped {
        return BlockedAt(AtOutbox);
      }
      var got := Fetch(me, cmd, w);
      match got {
        case Stopped => return BlockedAt(AtReceipt);
        case Refusal => return Raised;
        case Got(s) =>
          stopped := Finish(me, cmd, w, s);
          return if stopped then BlockedAt(AtTerminal) else Completed(terminalWrites);
      }
    }
  }
}
