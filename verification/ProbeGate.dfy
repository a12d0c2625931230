/** The scenario of the SIGKILL gate from beginning to end: one delivery that blocks at its fault point, the kill,
    and the redelivery. */
module ProbeGate {
  import opened Basics
  import opened ProbeMachine
  import opened ProbeSafety
  import opened ProbeRuns
  import opened ProbeDrive

  /** The lookup is answered, and a first POST brings back a successful status. */
  ghost predicate Clear(w: Weather) {
    w(Lookup) != Fails && SendSucceeds(w)
  }

  ghost predicate NoneRejected(p: Provider) {
    forall i :: 0 <= i < |p.log| ==> !p.log[i].Rejected?
  }

  lemma StepNotRejected(d: Durable, pc: Pc, me: TaskId, cmd: Command, net: Net)
    requires NoneRejected(d.provider) && net != Refused
    ensures NoneRejected(Step(d, pc, me, cmd, net).0.provider)
  {
    if pc == Send {
      assert Step(d, pc, me, cmd, net) == StepSend(d, cmd, net);
    } else {
      StepMoves(d, pc, me, cmd, net);
    }
  }

  lemma {:induction false} DriveNotRejected(d: Durable, pc: Pc, me: TaskId, cmd: Command, w: Weather)
    requires NoneRejected(d.provider) && Clear(w)
    ensures NoneRejected(Drive(d, pc, me, cmd, w).0.provider)
    decreases Rank(pc)
  {
    if !Halted(pc) {
      StepRank(d, pc, me, cmd, w(pc));
      var r := Step(d, pc, me, cmd, w(pc));
      if pc == Send {
        StepNotRejected(d, pc, me, cmd, w(pc));
      } else {
        StepMoves(d, pc, me, cmd, w(pc));
      }
      DriveStep(d, pc, r.0, r.1, me, cmd, w);
      DriveNotRejected(r.0, r.1, me, cmd, w);
    }
  }

  lemma {:induction false} OwnStepsLoseNoCount(cmds: TaskId -> Command, s: State, ls: seq<Label>)
    requires forall l <- ls :: !l.Kill?
    ensures !KilledUncounted(cmds, s, ls)
    decreases |ls|
  {
    if ls != [] {
      OwnStepsLoseNoCount(cmds, Next(cmds, s, ls[0]), ls[1..]);
    }
  }

  lemma DeliveryLosesNoCount(cmds: TaskId -> Command, s: State, me: TaskId, w: Weather)
    ensures !KilledUncounted(cmds, s, Delivery(cmds, s, me, w))
  {
    TraceIsOwn(s.d, Cover, me, cmds(me), w);
    OwnStepsLoseNoCount(cmds, s, Delivery(cmds, s, me, w));
  }

  /** The state after the first delivery of a run. */
  function First(cmds: TaskId -> Command, me: TaskId, w: Weather): State {
    Exec(cmds, START, Delivery(cmds, START, me, w))
  }

  /** The first delivery blocks at its own fault point, whichever that is. */
  lemma FirstDeliveryBlocks(cmds: TaskId -> Command, me: TaskId, w: Weather)
    requires Clear(w)
    ensures var d := First(cmds, me, w).d;
            && First(cmds, me, w).At(me) == Blocked(cmds(me).point)
            && d.attempts == 1 && d.workerAttempts == 1
            && d.lease == Some(me) && cmds(me).point in d.fired
            && Acceptable(d, cmds(me)) && NoneRejected(d.provider)
  {
    UndisturbedDeliveryReturnsIff(FRESH, me, cmds(me), w);
    DriveAttempts(FRESH, me, cmds(me), w);
    DeliveryIsDrive(cmds, START, me, w);
    DriveNotRejected(FRESH, Cover, me, cmds(me), w);
  }

  lemma DeliveryCounts(cmds: TaskId -> Command, s: State, me: TaskId, w: Weather)
    requires CountSound(s) && !Uncounted(s) && forall t: TaskId :: s.At(t) == Idle
    requires Drive(s.d, Cover, me, cmds(me), w).1 != CountTerminal
    ensures var d := Exec(cmds, s, Delivery(cmds, s, me, w)).d; d.terminal.Some? ==> d.terminalWrites == 1
  {
    DeliveryLosesNoCount(cmds, s, me, w);
    DeliveryIsDrive(cmds, s, me, w);
    SettledCount(cmds, s, Delivery(cmds, s, me, w));
  }

  lemma FirstDeliveryIsReady(cmds: TaskId -> Command, me: TaskId, w: Weather)
    requires Clear(w)
    ensures Ready(cmds, First(cmds, me, w), me)
  {
    var ls := Delivery(cmds, START, me, w);
    DeliveryIsSolo(cmds, START, me, w);
    RunKeeps(Solo(me), cmds, START, ls);
    SoloLog(cmds, START, ls, me);
    RecordedAtMostOnce(cmds, START, ls);
    UndisturbedDeliveryReturnsIff(FRESH, me, cmds(me), w);
    DeliveryCounts(cmds, START, me, w);
  }

  lemma KillKeepsReady(cmds: TaskId -> Command, s: State, me: TaskId)
    requires Ready(cmds, s, me)
    ensures Ready(cmds, Next(cmds, s, Kill(me)), me)
  {
    NextKeeps(Solo(me), cmds, s, Kill(me));
  }

  lemma OneRecord(p: Provider, key: Key, status: WritebackStatus)
    requires NoneRejected(p)
    requires Rejected(key) !in p.log ==> p.log == [Recorded(key, status)]
    ensures p.log == [Recorded(key, status)]
  {
  }

  /** For every fault point: the first delivery blocks there, and after the kill the redelivery ends in the state the
      gate asserts, with two attempts and exactly one provider request. */
  lemma GateScenarioPasses(cmds: TaskId -> Command, me: TaskId, first: Weather, second: Weather)
    requires Clear(first) && Clear(second)
    ensures var blocked := First(cmds, me, first);
            var killed := Next(cmds, blocked, Kill(me));
            var after := Exec(cmds, killed, Delivery(cmds, killed, me, second));
            && blocked.At(me) == Blocked(cmds(me).point) && blocked.d.lease == Some(me)
            && GateAccepts(killed.d, after, me)
            && after.d.attempts == 2 && after.d.workerAttempts == 2
            && after.d.provider.log == [Recorded(after.d.receipt.value.key, after.d.receipt.value.status)]
  {
    var killed := Next(cmds, First(cmds, me, first), Kill(me));
    var after := Exec(cmds, killed, Delivery(cmds, killed, me, second));
    FirstDeliveryBlocks(cmds, me, first);
    FirstDeliveryIsReady(cmds, me, first);
    KillKeepsReady(cmds, First(cmds, me, first), me);
    assert CanReturn(killed.d, me, cmds(me), second);
    RedeliveryFrom(cmds, killed, me, second);
    DeliveryIsDrive(cmds, killed, me, second);
    DriveNotRejected(killed.d, Cover, me, cmds(me), second);
    OneRecord(after.d.provider, after.d.receipt.value.key, after.d.receipt.value.status);
  }
}
