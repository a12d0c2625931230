/** What an expiry under a live holder breaks, and what no run can break. */
module ProbeAnyRun {
  import opened Basics
  import opened ProbeMachine
  import opened ProbeSafety
  import opened ProbeRuns
  import opened ProbeDrive

  // ---- what breaks ----

  /** A task that can block after its terminal closes the case, and leaves every other task where it was. */
  lemma ClosesTheCase(cmds: TaskId -> Command, s: State, u: TaskId, w: Weather)
    requires s.At(u) == Idle && Consistent(s.d)
    requires cmds(u).point == AtTerminal && CanBlock(s.d, u, cmds(u), w)
    ensures var closed := Exec(cmds, s, Delivery(cmds, s, u, w));
            && closed.d.terminal.Some? && closed.d.event == Final
            && forall t: TaskId :: t != u ==> closed.At(t) == s.At(t)
  {
    DeliveryIsDrive(cmds, s, u, w);
    UndisturbedDeliveryReturnsIff(s.d, u, cmds(u), w);
  }

  /** From every state with a holder about to open the event: the lease expires, another task closes the case up to
      its terminal, and the late write of the first reopens the event under the terminal. */
  lemma StaleHolderReopensTheCase(cmds: TaskId -> Command, s: State, t: TaskId, u: TaskId, w: Weather)
    requires t != u && s.At(t) == OpenEvent && s.At(u) == Idle && Consistent(s.d)
    requires cmds(u).point == AtTerminal && CanBlock(s.d.(lease := None), u, cmds(u), w)
    ensures var expired := Next(cmds, s, Expire);
            var closed := Exec(cmds, expired, Delivery(cmds, expired, u, w));
            var reopened := Next(cmds, closed, Run(t, Fine));
            && closed.d.terminal.Some? && closed.d.event == Final
            && reopened.d.terminal == closed.d.terminal && reopened.d.event == Initial
  {
    var expired := Next(cmds, s, Expire);
    ClosesTheCase(cmds, expired, u, w);
    assert Exec(cmds, expired, Delivery(cmds, expired, u, w)).At(t) == OpenEvent;
  }

  lemma ReachesOpenEvent(cmds: TaskId -> Command, t: TaskId) returns (ls: seq<Label>)
    ensures var s := Exec(cmds, START, ls);
            && s.At(t) == OpenEvent
            && (forall u: TaskId :: u != t ==> s.At(u) == Idle)
            && s.d.(attempts := 0, workerAttempts := 0, lease := None) == FRESH
  {
    var entry := seq(6, _ => Run(t, Fine));
    var s1 := Next(cmds, START, Deliver(t));
    Enters(cmds, s1, t, entry);
    var s2 := Exec(cmds, s1, entry);
    ls := [Deliver(t)] + (entry + [Run(t, Fine)]);
    assert ls[1..] == entry + [Run(t, Fine)];
    ExecAppend(cmds, s1, entry, [Run(t, Fine)]);
    assert Exec(cmds, s2, [Run(t, Fine)]) == Next(cmds, s2, Run(t, Fine));
    assert s2.d.event == FRESH.event;
    assert forall u: TaskId :: u != t ==> s1.At(u) == START.At(u) == Idle;
    assert forall u: TaskId :: u != t ==> Next(cmds, s2, Run(t, Fine)).At(u) == s2.At(u);
  }

  lemma ReopeningRun(cmds: TaskId -> Command, s: State, t: TaskId, u: TaskId, w: Weather) returns (ls: seq<Label>)
    requires t != u && s.At(t) == OpenEvent && s.At(u) == Idle && Consistent(s.d)
    requires cmds(u).point == AtTerminal && CanBlock(s.d.(lease := None), u, cmds(u), w)
    ensures var d := Exec(cmds, s, ls).d; d.terminal.Some? && d.event == Initial
  {
    StaleHolderReopensTheCase(cmds, s, t, u, w);
    var expired := Next(cmds, s, Expire);
    var delivery := Delivery(cmds, expired, u, w);
    var late := [Run(t, Fine)];
    var closed := Exec(cmds, expired, delivery);
    ls := [Expire] + (delivery + late);
    assert ls[1..] == delivery + late;
    ExecAppend(cmds, expired, delivery, late);
    assert Exec(cmds, closed, late) == Next(cmds, closed, Run(t, Fine));
  }

  /** So a run from the start reaches a terminal over an open event. */
  lemma ExpiryCanReopenAClosedCase(cmds: TaskId -> Command, t: TaskId, u: TaskId)
    requires t != u && cmds(u).point == AtTerminal
    ensures exists ls :: var d := Exec(cmds, START, ls).d; d.terminal.Some? && d.event == Initial
  {
    var before := ReachesOpenEvent(cmds, t);
    var after := ReopeningRun(cmds, Exec(cmds, START, before), t, u, CALM);
    ExecAppend(cmds, START, before, after);
  }

  // ---- exactly when a closed case stays closed ----

  ghost predicate AllClosed(d: Durable) {
    d.event == Final && d.action == Final && d.job == Final && d.outbox.Delivered?
  }

  /** About to create an artifact it has seen absent. */
  ghost predicate Opener(pc: Pc) {
    pc.OpenEvent? || pc.OpenAction? || pc.OpenJob? || pc.OpenOutbox?
  }

  ghost predicate NoOpener(s: State) {
    forall t: TaskId :: !Opener(s.At(t))
  }

  ghost predicate StillClosed(r: (Durable, Pc)) {
    AllClosed(r.0) && !Opener(r.1)
  }

  lemma PrepareClosed(d: Durable, pc: Pc, me: TaskId, cmd: Command)
    requires InPrepare(pc) && !Opener(pc) && AllClosed(d)
    ensures StillClosed(StepPrepare(d, pc, me, cmd))
  {}

  lemma ProviderClosed(d: Durable, pc: Pc, cmd: Command, net: Net)
    requires InProvider(pc) && AllClosed(d)
    ensures StillClosed(StepProvider(d, pc, cmd, net))
  {}

  lemma FinishClosed(d: Durable, pc: Pc, me: TaskId, cmd: Command)
    requires AllClosed(d)
    ensures StillClosed(StepFinish(d, pc, me, cmd))
  {}

  lemma StepClosed(d: Durable, pc: Pc, me: TaskId, cmd: Command, net: Net)
    requires !Opener(pc) && AllClosed(d)
    ensures StillClosed(Step(d, pc, me, cmd, net))
  {
    if InEntry(pc) {
    } else if InPrepare(pc) {
      PrepareClosed(d, pc, me, cmd);
    } else if InProvider(pc) {
      ProviderClosed(d, pc, cmd, net);
    } else {
      FinishClosed(d, pc, me, cmd);
    }
  }

  lemma NextClosed(cmds: TaskId -> Command, s: State, l: Label)
    requires AllClosed(s.d) && NoOpener(s)
    ensures AllClosed(Next(cmds, s, l).d) && NoOpener(Next(cmds, s, l))
  {
    if l.Run? && s.At(l.t) != Idle {
      StepClosed(s.d, s.At(l.t), l.t, cmds(l.t), l.net);
    }
    var s' := Next(cmds, s, l);
    forall t: TaskId
      ensures !Opener(s'.At(t))
    {
      assert !Opener(s.At(t));
    }
  }

  lemma {:induction false} StaysClosed(cmds: TaskId -> Command, s: State, ls: seq<Label>)
    requires AllClosed(s.d) && NoOpener(s)
    ensures AllClosed(Exec(cmds, s, ls).d)
    decreases |ls|
  {
    if ls != [] {
      NextClosed(cmds, s, ls[0]);
      StaysClosed(cmds, Next(cmds, s, ls[0]), ls[1..]);
    }
  }

  lemma OpenerReopens(cmds: TaskId -> Command, s: State, t: TaskId)
    requires Opener(s.At(t))
    ensures !AllClosed(Exec(cmds, s, [Run(t, Fine)]).d)
  {
    assert Exec(cmds, s, [Run(t, Fine)]) == Next(cmds, s, Run(t, Fine));
  }

  /** A closed case stays closed whatever happens next exactly when no delivery is about to create an artifact. */
  lemma ClosedCaseStaysClosedIff(cmds: TaskId -> Command, s: State)
    requires AllClosed(s.d)
    ensures (forall ls :: AllClosed(Exec(cmds, s, ls).d)) <==> NoOpener(s)
  {
    if NoOpener(s) {
      forall ls: seq<Label>
        ensures AllClosed(Exec(cmds, s, ls).d)
      {
        StaysClosed(cmds, s, ls);
      }
    } else {
      var t: TaskId :| Opener(s.At(t));
      OpenerReopens(cmds, s, t);
    }
  }

  // ---- what no run breaks ----

  ghost predicate AllOpened(d: Durable) {
    d.event != Absent && d.action != Absent && d.job != Absent && d.outbox != NoOutbox
  }

  /** Every claim of success rests on a successful receipt that the provider has stored. */
  ghost predicate Rooted(d: Durable) {
    && (d.receipt.Some? ==>
          var r := d.receipt.value;
          && Successful(r.status) && r.key in d.provider.records && d.provider.records[r.key] == r.status
          && AllOpened(d))
    && (d.event == Final || d.action == Final || d.job == Final || d.outbox.Delivered? || d.terminal.Some? ==>
          d.receipt.Some?)
    && (d.outbox.Delivered? ==> Successful(d.outbox.latest))
    && (d.terminal.Some? ==> Successful(d.terminal.value))
  }

  ghost predicate Stored(d: Durable, cmd: Command, w: WritebackStatus) {
    Successful(w) && cmd.key in d.provider.records && d.provider.records[cmd.key] == w && AllOpened(d)
  }

  /** What a delivery has seen that nobody can take back. */
  ghost predicate Seen(d: Durable, pc: Pc, cmd: Command) {
    match pc
    case ReadTerminal | ReadAction | OpenAction => d.event != Absent
    case LatchAction | ReadJob | OpenJob => d.event != Absent && d.action != Absent
    case ReadOutbox | OpenOutbox => d.event != Absent && d.action != Absent && d.job != Absent
    case LatchOutbox | ReadReceipt | Lookup | Send | LookupAfterLoss => AllOpened(d)
    case LatchReceipt(w) => Stored(d, cmd, w)
    case SaveReceipt(w) => Stored(d, cmd, w)
    case CloseEvent(w) => d.receipt.Some? && Successful(w)
    case FinishAction(w) => d.receipt.Some? && Successful(w)
    case FinishJob(w) => d.receipt.Some? && Successful(w)
    case FinishOutbox(w) => d.receipt.Some? && Successful(w)
    case InsertTerminal(w) => d.receipt.Some? && Successful(w)
    case _ => true
  }

  /** What is there stays there, in some status; stored attempts never change. */
  ghost predicate Grows(d: Durable, e: Durable) {
    && (d.event != Absent ==> e.event != Absent)
    && (d.action != Absent ==> e.action != Absent)
    && (d.job != Absent ==> e.job != Absent)
    && (d.outbox != NoOutbox ==> e.outbox != NoOutbox)
    && (d.receipt.Some? ==> e.receipt.Some?)
    && (forall k <- d.provider.records :: k in e.provider.records && e.provider.records[k] == d.provider.records[k])
  }

  lemma SeenLasts(d: Durable, e: Durable, pc: Pc, cmd: Command)
    requires Seen(d, pc, cmd) && Grows(d, e)
    ensures Seen(e, pc, cmd)
  {}

  ghost predicate StaysRooted(d: Durable, cmd: Command, r: (Durable, Pc)) {
    Rooted(r.0) && Seen(r.0, r.1, cmd) && Grows(d, r.0)
  }

  lemma EntryRooted(d: Durable, pc: Pc, me: TaskId, cmd: Command)
    requires InEntry(pc) && Rooted(d)
    ensures StaysRooted(d, cmd, StepEntry(d, pc, me))
  {}

  lemma PrepareRooted(d: Durable, pc: Pc, me: TaskId, cmd: Command)
    requires InPrepare(pc) && Rooted(d) && Seen(d, pc, cmd)
    ensures StaysRooted(d, cmd, StepPrepare(d, pc, me, cmd))
  {}

  lemma ProviderRooted(d: Durable, pc: Pc, cmd: Command, net: Net)
    requires InProvider(pc) && Rooted(d) && Seen(d, pc, cmd)
    ensures StaysRooted(d, cmd, StepProvider(d, pc, cmd, net))
  {}

  lemma FinishRooted(d: Durable, pc: Pc, me: TaskId, cmd: Command)
    requires !InEntry(pc) && !InPrepare(pc) && !InProvider(pc) && Rooted(d) && Seen(d, pc, cmd)
    ensures StaysRooted(d, cmd, StepFinish(d, pc, me, cmd))
  {}

  lemma StepRooted(d: Durable, pc: Pc, me: TaskId, cmd: Command, net: Net)
    requires Rooted(d) && Seen(d, pc, cmd)
    ensures StaysRooted(d, cmd, Step(d, pc, me, cmd, net))
  {
    if InEntry(pc) {
      EntryRooted(d, pc, me, cmd);
    } else if InPrepare(pc) {
      PrepareRooted(d, pc, me, cmd);
    } else if InProvider(pc) {
      ProviderRooted(d, pc, cmd, net);
    } else {
      FinishRooted(d, pc, me, cmd);
    }
  }

  ghost predicate AllRooted(cmds: TaskId -> Command, s: State) {
    Rooted(s.d) && forall t: TaskId :: Seen(s.d, s.At(t), cmds(t))
  }

  lemma RunRooted(cmds: TaskId -> Command, s: State, t: TaskId, r: (Durable, Pc))
    requires AllRooted(cmds, s) && StaysRooted(s.d, cmds(t), r)
    ensures AllRooted(cmds, State(r.0, s.pcs[t := r.1]))
  {
    var s' := State(r.0, s.pcs[t := r.1]);
    forall u: TaskId
      ensures Seen(s'.d, s'.At(u), cmds(u))
    {
      if u != t {
        SeenLasts(s.d, r.0, s.At(u), cmds(u));
      }
    }
  }

  lemma NextRooted(cmds: TaskId -> Command, s: State, l: Label)
    requires AllRooted(cmds, s)
    ensures AllRooted(cmds, Next(cmds, s, l))
  {
    var s' := Next(cmds, s, l);
    if l.Run? {
      if s.At(l.t) != Idle {
        StepRooted(s.d, s.At(l.t), l.t, cmds(l.t), l.net);
        RunRooted(cmds, s, l.t, Step(s.d, s.At(l.t), l.t, cmds(l.t), l.net));
      }
    } else {
      forall u: TaskId
        ensures Seen(s'.d, s'.At(u), cmds(u))
      {
        SeenLasts(s.d, s'.d, s.At(u), cmds(u));
      }
    }
  }

  lemma {:induction false} RunStaysRooted(cmds: TaskId -> Command, s: State, ls: seq<Label>)
    requires AllRooted(cmds, s)
    ensures AllRooted(cmds, Exec(cmds, s, ls))
    decreases |ls|
  {
    if ls != [] {
      NextRooted(cmds, s, ls[0]);
      RunStaysRooted(cmds, Next(cmds, s, ls[0]), ls[1..]);
    }
  }

  /** Whatever is killed, lost, expired or interleaved: a closed event, a finished action or job, a delivered outbox
      and a terminal each imply a durable successful receipt that the provider has stored, and every artifact opened. */
  lemma SuccessIsAlwaysRooted(cmds: TaskId -> Command, ls: seq<Label>)
    ensures Rooted(Exec(cmds, START, ls).d)
  {
    RunStaysRooted(cmds, START, ls);
  }

  /** In any run at all, what is recorded as done was accepted or confirmed by the provider, and nothing else. */
  lemma OnlyAcceptedOrConfirmedCounts(cmds: TaskId -> Command, ls: seq<Label>)
    ensures var d := Exec(cmds, START, ls).d;
            && (d.receipt.Some? ==> d.receipt.value.status == Accepted || d.receipt.value.status == Confirmed)
            && (d.outbox.Delivered? ==> d.outbox.latest == Accepted || d.outbox.latest == Confirmed)
            && (d.terminal.Some? ==> d.terminal.value == Accepted || d.terminal.value == Confirmed)
  {
    SuccessIsAlwaysRooted(cmds, ls);
  }

  // ---- which answers let a case close ----

  /** A delivery past its latch, with neither receipt nor terminal. */
  ghost predicate Unanswered(d: Durable, me: TaskId, cmd: Command) {
    Consistent(d) && MayEnter(d, me) && d.receipt == None && d.terminal == None && cmd.point in d.fired
  }

  /** When the provider answers the first POST, the delivery returns exactly for ACCEPTED and CONFIRMED; so too when the
      answer is lost and looked up. */
  lemma AnswerDecides(d: Durable, me: TaskId, cmd: Command, w: Weather, s: WritebackStatus)
    requires Unanswered(d, me, cmd) && cmd.key !in d.provider.records && w(Lookup) != Fails
    requires w(Send) == Answered(s) || (w(Send) == LostAfter(s) && w(LookupAfterLoss) != Fails)
    ensures Drive(d, Cover, me, cmd, w).1 == ReadCount <==> s == Accepted || s == Confirmed
    ensures s != Accepted && s != Confirmed ==> Drive(d, Cover, me, cmd, w).1 == Idle
  {
    UndisturbedDeliveryReturnsIff(d, me, cmd, w);
  }

  /** When the provider already holds an attempt under the key, its status decides in the same way. */
  lemma StoredAnswerDecides(d: Durable, me: TaskId, cmd: Command, w: Weather)
    requires Unanswered(d, me, cmd) && cmd.key in d.provider.records && w(Lookup) != Fails
    ensures var s := d.provider.records[cmd.key];
            Drive(d, Cover, me, cmd, w).1 == ReadCount <==> s == Accepted || s == Confirmed
  {
    UndisturbedDeliveryReturnsIff(d, me, cmd, w);
  }
}
