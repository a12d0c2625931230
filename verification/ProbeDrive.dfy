/** A delivery that runs undisturbed: no kill, no expiry, no other task in between. */
module ProbeDrive {
  import opened Basics
  import opened ProbeMachine
  import opened ProbeSafety
  import opened ProbeRuns

  /** What the network does at each call of one delivery (every call site runs at most once). */
  type Weather = Pc -> Net

  const CALM: Weather := (pc: Pc) => Fine

  /** Idle: an exception was raised. Blocked: waiting for the SIGKILL. ReadCount: about to return. */
  predicate Halted(pc: Pc) {
    pc == Idle || pc == ReadCount || pc.Blocked?
  }

  function Rank(pc: Pc): nat {
    match pc
    case Cover => 40 case CountAttempt => 39 case PushAttempt => 38 case NoteBroker => 37
    case GetOwner => 36 case Acquire => 35
    case ReadEvent => 34 case OpenEvent => 33 case ReadTerminal => 32 case ReleaseReplay => 31
    case ReadAction => 31 case OpenAction => 30 case LatchAction => 29
    case ReadJob => 28 case OpenJob => 27 case ReadOutbox => 26 case OpenOutbox => 25 case LatchOutbox => 24
    case ReadReceipt => 23 case Lookup => 22 case Send => 21 case LookupAfterLoss => 20
    case LatchReceipt(_) => 19 case SaveReceipt(_) => 18
    case CloseEvent(_) => 17 case FinishAction(_) => 16 case FinishJob(_) => 15 case FinishOutbox(_) => 14
    case InsertTerminal(_) => 13 case CountTerminal => 12 case LatchTerminal => 11 case ReleaseFinal => 10
    case Mark(_) => 1
    case Idle => 0 case ReadCount => 0 case Blocked(_) => 0
  }

  lemma EntryRank(d: Durable, pc: Pc, me: TaskId)
    requires InEntry(pc)
    ensures Rank(StepEntry(d, pc, me).1) < Rank(pc)
  {}

  lemma PrepareRank(d: Durable, pc: Pc, me: TaskId, cmd: Command)
    requires InPrepare(pc)
    ensures Rank(StepPrepare(d, pc, me, cmd).1) < Rank(pc)
  {}

  lemma ProviderRank(d: Durable, pc: Pc, cmd: Command, net: Net)
    requires InProvider(pc)
    ensures Rank(StepProvider(d, pc, cmd, net).1) < Rank(pc)
  {}

  lemma StepRank(d: Durable, pc: Pc, me: TaskId, cmd: Command, net: Net)
    requires !Halted(pc)
    ensures Rank(Step(d, pc, me, cmd, net).1) < Rank(pc)
  {
    if InEntry(pc) {
      EntryRank(d, pc, me);
    } else if InPrepare(pc) {
      PrepareRank(d, pc, me, cmd);
    } else if InProvider(pc) {
      ProviderRank(d, pc, cmd, net);
    }
  }

  function Drive(d: Durable, pc: Pc, me: TaskId, cmd: Command, w: Weather): (Durable, Pc)
    decreases Rank(pc)
  {
    if Halted(pc) then (d, pc)
    else
      StepRank(d, pc, me, cmd, w(pc));
      var r := Step(d, pc, me, cmd, w(pc));
      Drive(r.0, r.1, me, cmd, w)
  }

  /** The run that an undisturbed delivery is. */
  function Trace(d: Durable, pc: Pc, me: TaskId, cmd: Command, w: Weather): seq<Label>
    decreases Rank(pc)
  {
    if Halted(pc) then []
    else
      StepRank(d, pc, me, cmd, w(pc));
      var r := Step(d, pc, me, cmd, w(pc));
      [Run(me, w(pc))] + Trace(r.0, r.1, me, cmd, w)
  }

  lemma {:induction false} DriveIsARun(cmds: TaskId -> Command, s: State, me: TaskId, w: Weather)
    ensures var ls := Trace(s.d, s.At(me), me, cmds(me), w);
            var r := Drive(s.d, s.At(me), me, cmds(me), w);
            && Exec(cmds, s, ls).d == r.0
            && Exec(cmds, s, ls).At(me) == r.1
            && (forall u: TaskId :: u != me ==> Exec(cmds, s, ls).At(u) == s.At(u))
    decreases Rank(s.At(me))
  {
    var pc := s.At(me);
    if !Halted(pc) {
      StepRank(s.d, pc, me, cmds(me), w(pc));
      var r := Step(s.d, pc, me, cmds(me), w(pc));
      var s' := State(r.0, s.pcs[me := r.1]);
      assert s' == Next(cmds, s, Run(me, w(pc)));
      DriveIsARun(cmds, s', me, w);
      var rest := Trace(r.0, r.1, me, cmds(me), w);
      assert ([Run(me, w(pc))] + rest)[1..] == rest;
    }
  }

  // ---- how an undisturbed delivery ends, in any weather ----

  /** The latch of this delivery's fault point cannot stop it any more from `pc` on. */
  ghost predicate PastLatch(d: Durable, pc: Pc, cmd: Command) {
    || cmd.point in d.fired
    || (cmd.point == AtAction && Rank(pc) < 29)
    || (cmd.point == AtOutbox && Rank(pc) < 24)
    || (cmd.point == AtReceipt && (d.receipt.Some? || Rank(pc) < 19))
    || (cmd.point == AtTerminal && Rank(pc) < 11)
  }

  /** The provider's stored answer for the key, if any, is one the worker accepts. */
  ghost predicate Acceptable(d: Durable, cmd: Command) {
    d.receipt.Some? || cmd.key !in d.provider.records || Successful(d.provider.records[cmd.key])
  }

  /** A first POST under this key brings back a successful status. */
  ghost predicate SendSucceeds(w: Weather) {
    match w(Send)
    case Fine => true
    case Answered(s) => Successful(s)
    case LostAfter(s) => w(LookupAfterLoss) != Fails && Successful(s)
    case _ => false
  }

  /** A receipt is there, or the lookup and, if need be, the POST bring one the worker accepts. */
  ghost predicate Receives(d: Durable, cmd: Command, w: Weather) {
    || d.receipt.Some?
    || (&& w(Lookup) != Fails
        && if cmd.key in d.provider.records then Successful(d.provider.records[cmd.key]) else SendSucceeds(w))
  }

  /** The same from `pc` on. */
  ghost predicate WillReceive(d: Durable, pc: Pc, cmd: Command, w: Weather) {
    || d.receipt.Some?
    || pc.LatchReceipt?
    || pc.SaveReceipt?
    || (pc == LookupAfterLoss && w(pc) != Fails && cmd.key in d.provider.records && Successful(d.provider.records[cmd.key]))
    || (pc == Send && SendSucceeds(w))
    || (Rank(pc) >= 22 && Receives(d, cmd, w))
  }

  ghost predicate Replays(d: Durable, pc: Pc) {
    pc == ReleaseReplay || (Rank(pc) >= 32 && d.terminal.Some?)
  }

  ghost predicate Working(pc: Pc) {
    pc != Idle && pc != ReadCount && pc != ReleaseReplay && !pc.Mark? && !pc.Blocked?
  }

  /** Where `pc` leads once it is known whether a receipt will be there. */
  ghost predicate ReturnsIf(d: Durable, pc: Pc, cmd: Command, received: bool) {
    pc == ReadCount || Replays(d, pc) || (Working(pc) && PastLatch(d, pc, cmd) && received)
  }

  ghost predicate BlocksIf(d: Durable, pc: Pc, cmd: Command, received: bool) {
    || pc == Mark(cmd.point)
    || pc == Blocked(cmd.point)
    || (&& Working(pc) && !Replays(d, pc) && !PastLatch(d, pc, cmd)
        && (cmd.point == AtAction || cmd.point == AtOutbox || received))
  }

  ghost predicate WillReturn(d: Durable, pc: Pc, cmd: Command, w: Weather) {
    ReturnsIf(d, pc, cmd, WillReceive(d, pc, cmd, w))
  }

  ghost predicate WillBlock(d: Durable, pc: Pc, cmd: Command, w: Weather) {
    BlocksIf(d, pc, cmd, WillReceive(d, pc, cmd, w))
  }

  /** A step changes neither forecast. */
  ghost predicate Foreseen(d: Durable, pc: Pc, cmd: Command, w: Weather, r: (Durable, Pc)) {
    && (WillReturn(r.0, r.1, cmd, w) <==> WillReturn(d, pc, cmd, w))
    && (WillBlock(r.0, r.1, cmd, w) <==> WillBlock(d, pc, cmd, w))
    && (Acceptable(d, cmd) && WillBlock(d, pc, cmd, w) ==> Acceptable(r.0, cmd))
  }

  ghost predicate Steady(d: Durable, pc: Pc, cmd: Command, received: bool, r: (Durable, Pc)) {
    && (ReturnsIf(r.0, r.1, cmd, received) <==> ReturnsIf(d, pc, cmd, received))
    && (BlocksIf(r.0, r.1, cmd, received) <==> BlocksIf(d, pc, cmd, received))
  }

  /** A step that does not ask the provider keeps what is known about the receipt. */
  ghost predicate SameReceipt(d: Durable, pc: Pc, cmd: Command, w: Weather, r: (Durable, Pc)) {
    && (Working(r.1) ==> (WillReceive(r.0, r.1, cmd, w) <==> WillReceive(d, pc, cmd, w)))
    && (Acceptable(d, cmd) ==> Acceptable(r.0, cmd))
  }

  lemma SteadyIsForeseen(d: Durable, pc: Pc, cmd: Command, w: Weather, r: (Durable, Pc))
    requires Steady(d, pc, cmd, WillReceive(d, pc, cmd, w), r) && SameReceipt(d, pc, cmd, w, r)
    ensures Foreseen(d, pc, cmd, w, r)
  {}

  ghost predicate InOpening(pc: Pc) {
    pc.ReadEvent? || pc.OpenEvent? || pc.ReadTerminal? || pc.ReleaseReplay? || pc.ReadAction? || pc.OpenAction?
  }

  lemma OpeningSteady(d: Durable, pc: Pc, me: TaskId, cmd: Command, received: bool)
    requires InOpening(pc) && Knows(d, pc, cmd)
    ensures Steady(d, pc, cmd, received, StepPrepare(d, pc, me, cmd))
  {}

  lemma QueueingSteady(d: Durable, pc: Pc, me: TaskId, cmd: Command, received: bool)
    requires InPrepare(pc) && !InOpening(pc) && Knows(d, pc, cmd)
    ensures Steady(d, pc, cmd, received, StepPrepare(d, pc, me, cmd))
  {}

  lemma PrepareSameReceipt(d: Durable, pc: Pc, me: TaskId, cmd: Command, w: Weather)
    requires InPrepare(pc)
    ensures SameReceipt(d, pc, cmd, w, StepPrepare(d, pc, me, cmd))
  {}

  ghost predicate InAsking(pc: Pc) {
    pc.Lookup? || pc.Send? || pc.LookupAfterLoss?
  }

  lemma LookupForeseen(d: Durable, pc: Pc, cmd: Command, w: Weather)
    requires (pc == Lookup || pc == LookupAfterLoss) && Knows(d, pc, cmd)
    ensures Foreseen(d, pc, cmd, w, StepProvider(d, pc, cmd, w(pc)))
  {}

  lemma SendForeseen(d: Durable, cmd: Command, w: Weather)
    requires Knows(d, Send, cmd)
    ensures Foreseen(d, Send, cmd, w, StepSend(d, cmd, w(Send)))
  {
    match w(Send) {
      case Fine =>
      case Answered(_) =>
      case LostAfter(_) =>
      case _ =>
    }
  }

  lemma KeepingSteady(d: Durable, pc: Pc, cmd: Command, received: bool)
    requires InProvider(pc) && !InAsking(pc) && Consistent(d) && Knows(d, pc, cmd)
    requires pc != ReadReceipt || d.receipt.Some? ==> received
    ensures Steady(d, pc, cmd, received, StepProvider(d, pc, cmd, Fine))
  {}

  lemma KeepingSameReceipt(d: Durable, pc: Pc, cmd: Command, w: Weather)
    requires InProvider(pc) && !InAsking(pc) && Knows(d, pc, cmd)
    ensures SameReceipt(d, pc, cmd, w, StepProvider(d, pc, cmd, w(pc)))
    ensures StepProvider(d, pc, cmd, w(pc)) == StepProvider(d, pc, cmd, Fine)
  {}

  ghost predicate InClosing(pc: Pc) {
    pc.CloseEvent? || pc.FinishAction? || pc.FinishJob? || pc.FinishOutbox?
  }

  lemma ClosingSteady(d: Durable, pc: Pc, me: TaskId, cmd: Command)
    requires InClosing(pc) && Knows(d, pc, cmd)
    ensures Steady(d, pc, cmd, true, StepFinish(d, pc, me, cmd))
  {}

  lemma EndingSteady(d: Durable, pc: Pc, me: TaskId, cmd: Command)
    requires pc.InsertTerminal? || pc.CountTerminal? || pc.LatchTerminal? || pc.ReleaseFinal?
    requires Knows(d, pc, cmd)
    ensures Steady(d, pc, cmd, true, StepFinish(d, pc, me, cmd))
  {}

  lemma FinishSameReceipt(d: Durable, pc: Pc, me: TaskId, cmd: Command, w: Weather)
    requires InFinish(pc) && Consistent(d) && Knows(d, pc, cmd)
    ensures SameReceipt(d, pc, cmd, w, StepFinish(d, pc, me, cmd))
    ensures Working(pc) ==> WillReceive(d, pc, cmd, w)
  {}

  lemma MarkForeseen(d: Durable, pc: Pc, me: TaskId, cmd: Command, w: Weather)
    requires pc.Mark? && Knows(d, pc, cmd)
    ensures Foreseen(d, pc, cmd, w, StepFinish(d, pc, me, cmd))
  {}

  lemma StepForeseen(d: Durable, pc: Pc, me: TaskId, cmd: Command, w: Weather)
    requires PastGate(pc) && !Halted(pc) && Consistent(d) && Knows(d, pc, cmd)
    ensures Foreseen(d, pc, cmd, w, Step(d, pc, me, cmd, w(pc)))
  {
    var received := WillReceive(d, pc, cmd, w);
    if InPrepare(pc) {
      if InOpening(pc) {
        OpeningSteady(d, pc, me, cmd, received);
      } else {
        QueueingSteady(d, pc, me, cmd, received);
      }
      PrepareSameReceipt(d, pc, me, cmd, w);
      SteadyIsForeseen(d, pc, cmd, w, StepPrepare(d, pc, me, cmd));
    } else if pc == Send {
      SendForeseen(d, cmd, w);
    } else if InAsking(pc) {
      LookupForeseen(d, pc, cmd, w);
    } else if InProvider(pc) {
      KeepingSteady(d, pc, cmd, received);
      KeepingSameReceipt(d, pc, cmd, w);
      SteadyIsForeseen(d, pc, cmd, w, StepProvider(d, pc, cmd, Fine));
    } else if pc.Mark? {
      MarkForeseen(d, pc, me, cmd, w);
    } else {
      if InClosing(pc) {
        ClosingSteady(d, pc, me, cmd);
      } else {
        EndingSteady(d, pc, me, cmd);
      }
      FinishSameReceipt(d, pc, me, cmd, w);
      SteadyIsForeseen(d, pc, cmd, w, StepFinish(d, pc, me, cmd));
    }
  }

  /** What a delivery that returned has left behind. */
  ghost predicate Returned(d: Durable, r: (Durable, Pc)) {
    && r.0.lease == None
    && r.0.terminal.Some?
    && r.0.terminalWrites == if d.terminal.Some? then d.terminalWrites else 1
  }

  /** What a delivery that blocked has left behind. */
  ghost predicate Stopped(d: Durable, pc: Pc, cmd: Command, r: (Durable, Pc)) {
    && (((pc.Mark? || pc.Blocked?) ==> cmd.point in d.fired) ==> cmd.point in r.0.fired)
    && (Acceptable(d, cmd) ==> Acceptable(r.0, cmd))
    && (cmd.point == AtTerminal ==> r.0.terminal.Some?)
  }

  /** One step of a delivery that goes on. */
  lemma DriveStep(d: Durable, pc: Pc, e: Durable, next: Pc, me: TaskId, cmd: Command, w: Weather)
    requires !Halted(pc) && Step(d, pc, me, cmd, w(pc)) == (e, next)
    ensures Drive(d, pc, me, cmd, w) == Drive(e, next, me, cmd, w)
  {}

  /** How a delivery that is at `pc` with the lease ends. */
  ghost predicate Fate(d: Durable, pc: Pc, me: TaskId, cmd: Command, w: Weather, r: (Durable, Pc)) {
    && Consistent(r.0)
    && (r.1 == ReadCount <==> WillReturn(d, pc, cmd, w))
    && (r.1 == Blocked(cmd.point) <==> WillBlock(d, pc, cmd, w))
    && (r.1 == ReadCount || r.1 == Blocked(cmd.point) || r.1 == Idle)
    && (r.1 == ReadCount ==> Returned(if pc == CountTerminal then d.(terminal := None) else d, r))
    && (r.1 == Blocked(cmd.point) ==> Stopped(d, pc, cmd, r))
    && (r.1 != ReadCount ==> r.0.lease == Some(me))
  }

  /** The fate is that of the next step. */
  lemma FateOfNext(d: Durable, pc: Pc, e: Durable, next: Pc, me: TaskId, cmd: Command, w: Weather, r: (Durable, Pc))
    requires PastGate(pc) && Knows(d, pc, cmd) && Knows(e, next, cmd) && d.lease == Some(me)
    requires Foreseen(d, pc, cmd, w, (e, next)) && Moves(d, pc, me, (e, next))
    requires PastGate(next) && Fate(e, next, me, cmd, w, r)
    ensures Fate(d, pc, me, cmd, w, r)
  {}

  lemma FateAtOnce(d: Durable, pc: Pc, e: Durable, next: Pc, me: TaskId, cmd: Command, w: Weather)
    requires PastGate(pc) && Knows(d, pc, cmd) && d.lease == Some(me) && Consistent(e)
    requires Foreseen(d, pc, cmd, w, (e, next)) && Moves(d, pc, me, (e, next))
    requires Out(d, pc, me, (e, next))
    ensures Fate(d, pc, me, cmd, w, (e, next))
  {}

  /** Where a step leaves the protocol: an abort, or the release of the lease. */
  ghost predicate Out(d: Durable, pc: Pc, me: TaskId, r: (Durable, Pc)) {
    r.1 == Idle || (r.1 == ReadCount && (pc == ReleaseReplay || pc == ReleaseFinal) && r.0 == Release(d, me))
  }

  lemma PrepareOut(d: Durable, pc: Pc, me: TaskId, cmd: Command)
    requires InPrepare(pc)
    ensures var r := StepPrepare(d, pc, me, cmd); !PastGate(r.1) ==> Out(d, pc, me, r)
  {}

  lemma ProviderOut(d: Durable, pc: Pc, me: TaskId, cmd: Command, net: Net)
    requires InProvider(pc)
    ensures var r := StepProvider(d, pc, cmd, net); !PastGate(r.1) ==> Out(d, pc, me, r)
  {}

  lemma FinishOut(d: Durable, pc: Pc, me: TaskId, cmd: Command)
    ensures var r := StepFinish(d, pc, me, cmd); !PastGate(r.1) ==> Out(d, pc, me, r)
  {}

  lemma StepsOut(d: Durable, pc: Pc, me: TaskId, cmd: Command, net: Net)
    requires PastGate(pc)
    ensures var r := Step(d, pc, me, cmd, net); !PastGate(r.1) ==> Out(d, pc, me, r)
  {
    if InPrepare(pc) {
      PrepareOut(d, pc, me, cmd);
    } else if InProvider(pc) {
      ProviderOut(d, pc, me, cmd, net);
    } else {
      FinishOut(d, pc, me, cmd);
    }
  }

  lemma {:induction false} DrivePastGate(d: Durable, pc: Pc, me: TaskId, cmd: Command, w: Weather)
    requires PastGate(pc) && Consistent(d) && Knows(d, pc, cmd)
    requires d.lease == Some(me)
    ensures Fate(d, pc, me, cmd, w, Drive(d, pc, me, cmd, w))
    decreases Rank(pc)
  {
    if !Halted(pc) {
      var r := Step(d, pc, me, cmd, w(pc));
      StepRank(d, pc, me, cmd, w(pc));
      StepPastGate(d, pc, me, cmd, w(pc));
      StepMoves(d, pc, me, cmd, w(pc));
      StepForeseen(d, pc, me, cmd, w);
      StepsOut(d, pc, me, cmd, w(pc));
      DriveStep(d, pc, r.0, r.1, me, cmd, w);
      if PastGate(r.1) {
        DrivePastGate(r.0, r.1, me, cmd, w);
        FateOfNext(d, pc, r.0, r.1, me, cmd, w, Drive(r.0, r.1, me, cmd, w));
      } else {
        FateAtOnce(d, pc, r.0, r.1, me, cmd, w);
      }
    }
  }

  ghost predicate MayEnter(d: Durable, me: TaskId) {
    d.lease == None || d.lease == Some(me)
  }

  function Counted(d: Durable): Durable {
    d.(attempts := d.attempts + 1, workerAttempts := d.workerAttempts + 1)
  }

  function Entered(d: Durable, me: TaskId): Durable {
    Counted(d).(lease := Some(me))
  }

  lemma DriveGate(d: Durable, me: TaskId, cmd: Command, w: Weather)
    ensures MayEnter(d, me) ==> Drive(d, GetOwner, me, cmd, w) == Drive(d.(lease := Some(me)), ReadEvent, me, cmd, w)
    ensures !MayEnter(d, me) ==> Drive(d, GetOwner, me, cmd, w) == (d, Idle)
  {
    if d.lease == None {
      assert Step(d, GetOwner, me, cmd, w(GetOwner)) == (d, Acquire);
      assert Step(d, Acquire, me, cmd, w(Acquire)) == (d.(lease := Some(me)), ReadEvent);
      assert Drive(d, Acquire, me, cmd, w) == Drive(d.(lease := Some(me)), ReadEvent, me, cmd, w);
    } else if d.lease == Some(me) {
      assert d.(lease := Some(me)) == d;
      assert Step(d, GetOwner, me, cmd, w(GetOwner)) == (d, ReadEvent);
    } else {
      assert Step(d, GetOwner, me, cmd, w(GetOwner)) == (d, Idle);
    }
  }

  lemma DriveToGate(d: Durable, me: TaskId, cmd: Command, w: Weather)
    ensures Drive(d, Cover, me, cmd, w) == Drive(Counted(d), GetOwner, me, cmd, w)
  {
    var d1 := d.(attempts := d.attempts + 1);
    DriveStep(d, Cover, d, CountAttempt, me, cmd, w);
    DriveStep(d, CountAttempt, d1, PushAttempt, me, cmd, w);
    DriveStep(d1, PushAttempt, Counted(d), NoteBroker, me, cmd, w);
    DriveStep(Counted(d), NoteBroker, Counted(d), GetOwner, me, cmd, w);
  }

  lemma DriveEnters(d: Durable, me: TaskId, cmd: Command, w: Weather)
    requires MayEnter(d, me)
    ensures Drive(d, Cover, me, cmd, w) == Drive(Entered(d, me), ReadEvent, me, cmd, w)
  {
    DriveToGate(d, me, cmd, w);
    DriveGate(Counted(d), me, cmd, w);
  }

  lemma DriveTurnedAway(d: Durable, me: TaskId, cmd: Command, w: Weather)
    requires !MayEnter(d, me)
    ensures Drive(d, Cover, me, cmd, w) == (Counted(d), Idle)
  {
    DriveToGate(d, me, cmd, w);
    DriveGate(Counted(d), me, cmd, w);
  }

  /** The latch of this delivery's fault point cannot stop it. */
  ghost predicate LatchSpent(d: Durable, cmd: Command) {
    cmd.point in d.fired || (cmd.point == AtReceipt && d.receipt.Some?)
  }

  /** The condition, checkable before the delivery, under which it runs to its return. */
  ghost predicate CanReturn(d: Durable, me: TaskId, cmd: Command, w: Weather) {
    MayEnter(d, me) && (d.terminal.Some? || (LatchSpent(d, cmd) && Receives(d, cmd, w)))
  }

  /** The condition under which it runs into its fault point. */
  ghost predicate CanBlock(d: Durable, me: TaskId, cmd: Command, w: Weather) {
    && MayEnter(d, me) && d.terminal == None && !LatchSpent(d, cmd)
    && (cmd.point == AtAction || cmd.point == AtOutbox || Receives(d, cmd, w))
  }

  /** At the gate the forecast is the condition. */
  lemma ForecastAtGate(d: Durable, me: TaskId, cmd: Command, w: Weather)
    requires MayEnter(d, me)
    ensures WillReturn(Entered(d, me), ReadEvent, cmd, w) <==> CanReturn(d, me, cmd, w)
    ensures WillBlock(Entered(d, me), ReadEvent, cmd, w) <==> CanBlock(d, me, cmd, w)
  {}

  lemma EnteredKeeps(d: Durable, me: TaskId, cmd: Command)
    requires Consistent(d)
    ensures Consistent(Entered(d, me)) && Knows(Entered(d, me), ReadEvent, cmd)
    ensures Acceptable(Entered(d, me), cmd) <==> Acceptable(d, cmd)
  {}

  /** In any weather, an undisturbed delivery returns exactly when CanReturn holds, blocks at its fault point exactly
      when CanBlock holds, and raises otherwise. One that returns leaves the lease free and the terminal counted once,
      unless an earlier kill already lost that count; one that blocks leaves the latch spent. */
  lemma UndisturbedDeliveryReturnsIff(d: Durable, me: TaskId, cmd: Command, w: Weather)
    requires Consistent(d)
    ensures var r := Drive(d, Cover, me, cmd, w);
            && (r.1 == ReadCount <==> CanReturn(d, me, cmd, w))
            && (r.1 == Blocked(cmd.point) <==> CanBlock(d, me, cmd, w))
            && (r.1 == ReadCount || r.1 == Blocked(cmd.point) || r.1 == Idle)
            && Consistent(r.0)
            && (r.1 == ReadCount ==> Returned(d, r))
            && (r.1 == Blocked(cmd.point) ==> r.0.lease == Some(me) && Stopped(d, Cover, cmd, r))
  {
    if MayEnter(d, me) {
      DriveEnters(d, me, cmd, w);
      EnteredKeeps(d, me, cmd);
      DrivePastGate(Entered(d, me), ReadEvent, me, cmd, w);
      ForecastAtGate(d, me, cmd, w);
    } else {
      DriveTurnedAway(d, me, cmd, w);
    }
  }

  lemma {:induction false} OwnLabelsAreSolo(cmds: TaskId -> Command, s: State, ls: seq<Label>, me: TaskId)
    requires forall l <- ls :: l.Run? && l.t == me
    ensures AllowedRun(Solo(me), cmds, s, ls)
    decreases |ls|
  {
    if ls != [] {
      OwnLabelsAreSolo(cmds, Next(cmds, s, ls[0]), ls[1..], me);
    }
  }

  lemma {:induction false} TraceIsOwn(d: Durable, pc: Pc, me: TaskId, cmd: Command, w: Weather)
    ensures forall l <- Trace(d, pc, me, cmd, w) :: l.Run? && l.t == me
    decreases Rank(pc)
  {
    if !Halted(pc) {
      StepRank(d, pc, me, cmd, w(pc));
      var r := Step(d, pc, me, cmd, w(pc));
      TraceIsOwn(r.0, r.1, me, cmd, w);
    }
  }

  ghost predicate LogOf(p: Provider, key: Key) {
    forall i :: 0 <= i < |p.log| ==> p.log[i].key == key
  }

  lemma StepLog(d: Durable, pc: Pc, me: TaskId, cmd: Command, net: Net)
    requires LogOf(d.provider, cmd.key)
    ensures LogOf(Step(d, pc, me, cmd, net).0.provider, cmd.key)
  {
    if pc == Send {
      assert Step(d, Send, me, cmd, net) == StepSend(d, cmd, net);
    } else {
      StepMoves(d, pc, me, cmd, net);
    }
  }

  lemma {:induction false} SoloLog(cmds: TaskId -> Command, s: State, ls: seq<Label>, me: TaskId)
    requires LogOf(s.d.provider, cmds(me).key)
    requires AllowedRun(Solo(me), cmds, s, ls)
    ensures LogOf(Exec(cmds, s, ls).d.provider, cmds(me).key)
    decreases |ls|
  {
    if ls != [] {
      var l := ls[0];
      if l.Run? && s.At(me) != Idle {
        StepLog(s.d, s.At(me), me, cmds(me), l.net);
      }
      SoloLog(cmds, Next(cmds, s, l), ls[1..], me);
    }
  }

  /** The final state the gate script asserts. */
  ghost predicate GateAccepts(before: Durable, after: State, me: TaskId) {
    var d := after.d;
    && after.At(me) == ReadCount
    && d.attempts == before.attempts + 1 && d.workerAttempts == before.workerAttempts + 1
    && d.terminalWrites == 1
    && d.lease == None
    && d.event == Final && d.action == Final && d.job == Final
    && d.receipt.Some? && Successful(d.receipt.value.status)
    && d.outbox == Delivered(d.receipt.value.status)
    && d.terminal == Some(d.receipt.value.status)
    && (Rejected(d.receipt.value.key) !in d.provider.log ==>
          d.provider.log == [Recorded(d.receipt.value.key, d.receipt.value.status)])
  }

  /** A delivery that nothing interrupts. */
  function Delivery(cmds: TaskId -> Command, s: State, me: TaskId, w: Weather): seq<Label> {
    [Deliver(me)] + Trace(s.d, Cover, me, cmds(me), w)
  }

  lemma DeliveryIsDrive(cmds: TaskId -> Command, s: State, me: TaskId, w: Weather)
    requires s.At(me) == Idle
    ensures var e, r := Exec(cmds, s, Delivery(cmds, s, me, w)), Drive(s.d, Cover, me, cmds(me), w);
            && e.d == r.0 && e.At(me) == r.1
            && forall u: TaskId :: u != me ==> e.At(u) == s.At(u)
  {
    var s1 := Next(cmds, s, Deliver(me));
    assert Delivery(cmds, s, me, w)[1..] == Trace(s.d, Cover, me, cmds(me), w);
    DriveIsARun(cmds, s1, me, w);
  }

  lemma DeliveryIsSolo(cmds: TaskId -> Command, s: State, me: TaskId, w: Weather)
    ensures AllowedRun(Solo(me), cmds, s, Delivery(cmds, s, me, w))
  {
    var tr := Trace(s.d, Cover, me, cmds(me), w);
    assert Delivery(cmds, s, me, w)[1..] == tr;
    TraceIsOwn(s.d, Cover, me, cmds(me), w);
    OwnLabelsAreSolo(cmds, Next(cmds, s, Deliver(me)), tr, me);
  }

  /** All that a redelivery relies on. */
  ghost predicate Ready(cmds: TaskId -> Command, s: State, me: TaskId) {
    && Inv(Solo(me), cmds, s)
    && (s.d.terminal.Some? ==> s.d.terminalWrites == 1)
    && LogOf(s.d.provider, cmds(me).key) && Ledger(s.d.provider) && NoReplay(s.d)
  }

  /** If no kill came between the insert and the count and nobody is there, a terminal has been counted. */
  lemma SettledCount(cmds: TaskId -> Command, s: State, ls: seq<Label>)
    requires CountSound(s) && !Uncounted(s) && !KilledUncounted(cmds, s, ls)
    requires forall t: TaskId :: Exec(cmds, s, ls).At(t) != CountTerminal
    ensures var d := Exec(cmds, s, ls).d; d.terminal.Some? ==> d.terminalWrites == 1
  {
    UncountedIffKilledBetween(cmds, s, ls);
    TerminalCountedAtMostOnce(cmds, s, ls);
  }

  lemma RedeliveryFrom(cmds: TaskId -> Command, s: State, me: TaskId, w: Weather)
    requires Ready(cmds, s, me) && s.At(me) == Idle && CanReturn(s.d, me, cmds(me), w)
    ensures GateAccepts(s.d, Exec(cmds, s, Delivery(cmds, s, me, w)), me)
  {
    var ls := Delivery(cmds, s, me, w);
    UndisturbedDeliveryReturnsIff(s.d, me, cmds(me), w);
    DriveAttempts(s.d, me, cmds(me), w);
    DeliveryIsDrive(cmds, s, me, w);
    DeliveryIsSolo(cmds, s, me, w);
    RunKeeps(Solo(me), cmds, s, ls);
    SoloLog(cmds, s, ls, me);
    RecordedAtMostOnce(cmds, s, ls);
    OneRequest(Exec(cmds, s, ls).d, cmds(me).key);
  }

  lemma ReadyIsSettled(cmds: TaskId -> Command, s: State, me: TaskId)
    requires Ready(cmds, s, me)
    ensures CountSound(s) && !Uncounted(s)
  {
    assert forall t: TaskId :: s.At(t) == CountTerminal ==> PastGate(s.At(t));
  }

  /** Kills at fault points leave a run ready for the next delivery. */
  lemma MarkedKillsKeepReady(cmds: TaskId -> Command, s: State, ls: seq<Label>, me: TaskId)
    requires Ready(cmds, s, me) && AllowedRun(Solo(me), cmds, s, ls) && KillsOnlyAtMarks(cmds, s, ls)
    requires Exec(cmds, s, ls).At(me) == Idle
    ensures Ready(cmds, Exec(cmds, s, ls), me)
  {
    RunKeeps(Solo(me), cmds, s, ls);
    SoloLog(cmds, s, ls, me);
    RecordedAtMostOnce(cmds, s, ls);
    ReadyIsSettled(cmds, s, me);
    MarkedKillsLoseNoCount(cmds, s, ls);
    assert forall t: TaskId :: Exec(cmds, s, ls).At(t) == Idle;
    SettledCount(cmds, s, ls);
  }

  /** If every kill hit a worker blocked at a fault point, the next undisturbed delivery, in any weather that lets it
      return, ends in the state the gate asserts: one counted terminal write, a free lease, and one provider request. */
  lemma MarkedKillsThenRedeliveryPasses(cmds: TaskId -> Command, ls: seq<Label>, me: TaskId, w: Weather)
    requires AllowedRun(Solo(me), cmds, START, ls) && KillsOnlyAtMarks(cmds, START, ls)
    requires var s := Exec(cmds, START, ls);
             s.At(me) == Idle && CanReturn(s.d, me, cmds(me), w)
    ensures var s := Exec(cmds, START, ls);
            GateAccepts(s.d, Exec(cmds, s, Delivery(cmds, s, me, w)), me)
  {
    MarkedKillsKeepReady(cmds, START, ls, me);
    RedeliveryFrom(cmds, Exec(cmds, START, ls), me, w);
  }

  lemma OneRequest(d: Durable, key: Key)
    requires Consistent(d) && Ledger(d.provider) && LogOf(d.provider, key) && NoReplay(d)
    requires d.receipt.Some?
    ensures Rejected(d.receipt.value.key) !in d.provider.log ==>
              d.provider.log == [Recorded(d.receipt.value.key, d.receipt.value.status)]
  {
    var log := d.provider.log;
    var r := d.receipt.value;
    assert Recorded(r.key, r.status) in log;
    var i :| 0 <= i < |log| && log[i] == Recorded(r.key, r.status);
    assert r.key == key;
    if Rejected(r.key) !in log {
      assert forall j :: 0 <= j < |log| ==> log[j] != Rejected(log[j].key);
      assert forall j :: 0 <= j < |log| ==> log[j].Recorded?;
      assert log[0].key == log[|log| - 1].key;
    }
  }

  lemma {:induction false} AttemptsFixed(d: Durable, pc: Pc, me: TaskId, cmd: Command, w: Weather)
    requires !InEntry(pc)
    ensures var r := Drive(d, pc, me, cmd, w);
            r.0.attempts == d.attempts && r.0.workerAttempts == d.workerAttempts
    decreases Rank(pc)
  {
    if !Halted(pc) {
      StepRank(d, pc, me, cmd, w(pc));
      var r := Step(d, pc, me, cmd, w(pc));
      StepAttempts(d, pc, me, cmd, w(pc));
      AttemptsFixed(r.0, r.1, me, cmd, w);
    }
  }

  lemma DriveAttempts(d: Durable, me: TaskId, cmd: Command, w: Weather)
    requires MayEnter(d, me)
    ensures var r := Drive(d, Cover, me, cmd, w);
            r.0.attempts == d.attempts + 1 && r.0.workerAttempts == d.workerAttempts + 1
  {
    DriveEnters(d, me, cmd, w);
    AttemptsFixed(Entered(d, me), ReadEvent, me, cmd, w);
  }

  ghost predicate SameAttempts(d: Durable, r: (Durable, Pc)) {
    !InEntry(r.1) && r.0.attempts == d.attempts && r.0.workerAttempts == d.workerAttempts
  }

  lemma PrepareAttempts(d: Durable, pc: Pc, me: TaskId, cmd: Command)
    requires InPrepare(pc)
    ensures SameAttempts(d, StepPrepare(d, pc, me, cmd))
  {}

  lemma ProviderAttempts(d: Durable, pc: Pc, cmd: Command, net: Net)
    requires InProvider(pc)
    ensures SameAttempts(d, StepProvider(d, pc, cmd, net))
  {}

  lemma FinishAttempts(d: Durable, pc: Pc, me: TaskId, cmd: Command)
    ensures SameAttempts(d, StepFinish(d, pc, me, cmd))
  {}

  lemma StepAttempts(d: Durable, pc: Pc, me: TaskId, cmd: Command, net: Net)
    requires !InEntry(pc)
    ensures SameAttempts(d, Step(d, pc, me, cmd, net))
  {
    if InPrepare(pc) {
      PrepareAttempts(d, pc, me, cmd);
    } else if InProvider(pc) {
      ProviderAttempts(d, pc, cmd, net);
    } else {
      FinishAttempts(d, pc, me, cmd);
    }
  }
}
