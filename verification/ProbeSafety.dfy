/** What every run of the probe protocol keeps. */
module ProbeSafety {
  import opened Basics
  import opened ProbeMachine

  // ---- runs ----

  /** Solo: one task id, whose lease may expire at any moment.
      Fenced: any number of task ids; the lease does not expire under a live holder. */
  datatype Mode = Solo(only: TaskId) | Fenced

  ghost predicate Allowed(mode: Mode, s: State, l: Label) {
    match mode
    case Solo(me) => l.Expire? || l.Lapse? || l.t == me
    case Fenced => l == Expire ==> forall t <- s.pcs :: !PastGate(s.pcs[t])
  }

  ghost predicate AllowedRun(mode: Mode, cmds: TaskId -> Command, s: State, ls: seq<Label>)
    decreases |ls|
  {
    ls == [] || (Allowed(mode, s, ls[0]) && AllowedRun(mode, cmds, Next(cmds, s, ls[0]), ls[1..]))
  }

  // ---- the invariant ----

  /** The durable artifacts agree with each other, between any two writes. */
  ghost predicate Consistent(d: Durable) {
    && (d.action != Absent ==> d.event != Absent)
    && (d.job != Absent ==> d.action != Absent)
    && (d.outbox != NoOutbox ==> d.job != Absent)
    && (d.receipt.Some? ==> d.outbox != NoOutbox)
    && (d.provider.log != [] ==> d.outbox != NoOutbox)
    && (d.receipt.Some? ==>
          var r := d.receipt.value;
          Successful(r.status) && r.key in d.provider.records && d.provider.records[r.key] == r.status)
    && (d.event == Final ==> d.receipt.Some?)
    && (d.action == Final ==> d.event == Final)
    && (d.job == Final ==> d.action == Final)
    && (d.outbox.Delivered? ==> d.job == Final && d.outbox.latest == d.receipt.value.status)
    && (d.terminal.Some? ==> d.outbox == Delivered(d.terminal.value))
    && d.terminalWrites <= 1
    && (d.terminalWrites == 1 ==> d.terminal.Some?)
  }

  ghost predicate Prepared(d: Durable) {
    d.outbox != NoOutbox && d.terminal == None
  }

  ghost predicate Received(d: Durable, w: WritebackStatus) {
    d.receipt.Some? && d.receipt.value.status == w
  }

  /** What a delivery past the lease gate has established about the durable state. */
  ghost predicate Knows(d: Durable, pc: Pc, cmd: Command) {
    match pc
    case OpenEvent => d.event == Absent
    case ReadTerminal => d.event != Absent
    case ReleaseReplay | ReleaseFinal => d.terminal.Some?
    case LatchTerminal => d.terminal.Some? && cmd.point == AtTerminal
    case ReadAction => d.event != Absent && d.terminal == None
    case OpenAction => d.event != Absent && d.action == Absent && d.terminal == None
    case LatchAction => d.action != Absent && d.terminal == None && cmd.point == AtAction
    case ReadJob => d.action != Absent && d.terminal == None
    case OpenJob => d.action != Absent && d.job == Absent && d.terminal == None
    case ReadOutbox => d.job != Absent && d.terminal == None
    case OpenOutbox => d.job != Absent && d.outbox == NoOutbox && d.terminal == None
    case LatchOutbox => Prepared(d) && cmd.point == AtOutbox
    case ReadReceipt => Prepared(d)
    case Lookup | LookupAfterLoss => Prepared(d) && d.receipt == None
    case Send => Prepared(d) && d.receipt == None && cmd.key !in d.provider.records
    case LatchReceipt(w) => KnowsRecord(d, cmd, w) && cmd.point == AtReceipt
    case SaveReceipt(w) => KnowsRecord(d, cmd, w)
    case CloseEvent(w) => Received(d, w) && d.terminal == None
    case FinishAction(w) => Received(d, w) && d.event == Final && d.terminal == None
    case FinishJob(w) => Received(d, w) && d.action == Final && d.terminal == None
    case FinishOutbox(w) => Received(d, w) && d.job == Final && d.terminal == None
    case InsertTerminal(w) => d.outbox == Delivered(w) && d.terminal == None
    case CountTerminal => d.terminal.Some? && d.terminalWrites == 0
    case Mark(p) => p == cmd.point && (p == AtTerminal ==> d.terminal.Some?)
    case Blocked(p) => p == cmd.point && (p == AtTerminal ==> d.terminal.Some?)
    case _ => true
  }

  ghost predicate KnowsRecord(d: Durable, cmd: Command, w: WritebackStatus) {
    && Prepared(d)
    && d.receipt == None
    && Successful(w)
    && cmd.key in d.provider.records
    && d.provider.records[cmd.key] == w
  }

  ghost predicate Exclusive(s: State) {
    forall t: TaskId, u: TaskId :: PastGate(s.At(t)) && PastGate(s.At(u)) ==> t == u
  }

  ghost predicate Guarded(mode: Mode, s: State) {
    match mode
    case Solo(me) => s.pcs.Keys <= {me} && (s.d.lease == None || s.d.lease == Some(me))
    case Fenced => forall t: TaskId :: PastGate(s.At(t)) ==> s.d.lease == Some(t)
  }

  ghost predicate Inv(mode: Mode, cmds: TaskId -> Command, s: State) {
    && Consistent(s.d)
    && (forall t: TaskId :: PastGate(s.At(t)) ==> Knows(s.d, s.At(t), cmds(t)))
    && Exclusive(s)
    && Guarded(mode, s)
  }

  // ---- one step ----

  /** Artifacts only move forward; the receipt, the terminal and provider records are write-once. */
  ghost predicate Advances(d: Durable, e: Durable) {
    && Forward(d.event, e.event)
    && Forward(d.action, e.action)
    && Forward(d.job, e.job)
    && (d.outbox != NoOutbox ==> e.outbox != NoOutbox)
    && (d.outbox.Delivered? ==> e.outbox == d.outbox)
    && (d.receipt.Some? ==> e.receipt == d.receipt)
    && (d.terminal.Some? ==> e.terminal == d.terminal)
    && d.terminalWrites <= e.terminalWrites
    && d.provider.log <= e.provider.log
    && (forall k <- d.provider.records :: k in e.provider.records && e.provider.records[k] == d.provider.records[k])
    && (d.terminal.Some? ==> e.provider == d.provider)
  }

  ghost predicate Forward(a: Artifact, b: Artifact) {
    a == Absent || b == Final || a == b
  }

  ghost predicate NoReplay(d: Durable) {
    forall i :: 0 <= i < |d.provider.log| ==> !d.provider.log[i].Replayed?
  }

  ghost predicate StepKeeps(d: Durable, cmd: Command, r: (Durable, Pc)) {
    && Consistent(r.0)
    && (PastGate(r.1) ==> Knows(r.0, r.1, cmd))
  }

  ghost predicate StepAdvances(d: Durable, r: (Durable, Pc)) {
    && Advances(d, r.0)
    && (NoReplay(d) ==> NoReplay(r.0))
  }

  lemma PrepareKeeps(d: Durable, pc: Pc, me: TaskId, cmd: Command)
    requires InPrepare(pc) && Consistent(d) && Knows(d, pc, cmd)
    ensures StepKeeps(d, cmd, StepPrepare(d, pc, me, cmd))
  {}

  lemma PrepareAdvances(d: Durable, pc: Pc, me: TaskId, cmd: Command)
    requires InPrepare(pc) && Consistent(d) && Knows(d, pc, cmd)
    ensures StepAdvances(d, StepPrepare(d, pc, me, cmd))
  {}

  lemma ProviderKeeps(d: Durable, pc: Pc, cmd: Command, net: Net)
    requires InProvider(pc) && Consistent(d) && Knows(d, pc, cmd)
    ensures StepKeeps(d, cmd, StepProvider(d, pc, cmd, net))
  {}

  lemma ProviderAdvances(d: Durable, pc: Pc, cmd: Command, net: Net)
    requires InProvider(pc) && Consistent(d) && Knows(d, pc, cmd)
    ensures StepAdvances(d, StepProvider(d, pc, cmd, net))
  {}

  ghost predicate InFinish(pc: Pc) {
    || pc.CloseEvent? || pc.FinishAction? || pc.FinishJob? || pc.FinishOutbox?
    || pc.InsertTerminal? || pc.CountTerminal? || pc.LatchTerminal? || pc.ReleaseFinal?
    || pc.Mark? || pc.Blocked?
  }

  lemma FinishKeeps(d: Durable, pc: Pc, me: TaskId, cmd: Command)
    requires InFinish(pc) && Consistent(d) && Knows(d, pc, cmd)
    ensures StepKeeps(d, cmd, StepFinish(d, pc, me, cmd))
  {}

  lemma FinishAdvances(d: Durable, pc: Pc, me: TaskId, cmd: Command)
    requires InFinish(pc) && Consistent(d) && Knows(d, pc, cmd)
    ensures StepAdvances(d, StepFinish(d, pc, me, cmd))
  {}

  /** A delivery past the gate keeps the artifacts consistent and only moves them forward. */
  lemma StepPastGate(d: Durable, pc: Pc, me: TaskId, cmd: Command, net: Net)
    requires PastGate(pc) && Consistent(d) && Knows(d, pc, cmd)
    ensures StepKeeps(d, cmd, Step(d, pc, me, cmd, net))
    ensures StepAdvances(d, Step(d, pc, me, cmd, net))
  {
    if InPrepare(pc) {
      PrepareKeeps(d, pc, me, cmd);
      PrepareAdvances(d, pc, me, cmd);
    } else if InProvider(pc) {
      ProviderKeeps(d, pc, cmd, net);
      ProviderAdvances(d, pc, cmd, net);
    } else {
      FinishKeeps(d, pc, me, cmd);
      FinishAdvances(d, pc, me, cmd);
    }
  }

  lemma EntryKeeps(d: Durable, pc: Pc, me: TaskId, cmd: Command, net: Net)
    requires InEntry(pc) && Consistent(d)
    ensures var r := Step(d, pc, me, cmd, net);
            Consistent(r.0) && r.0.provider == d.provider && Advances(d, r.0)
    ensures var r := Step(d, pc, me, cmd, net);
            PastGate(r.1) ==> r.1 == ReadEvent && r.0.lease == Some(me) && (d.lease == None || d.lease == Some(me))
    ensures var r := Step(d, pc, me, cmd, net);
            r.0.lease == d.lease || (d.lease == None && r.0.lease == Some(me))
    ensures forall other: Pc, c: Command :: Knows(d, other, c) ==> Knows(Step(d, pc, me, cmd, net).0, other, c)
  {}

  // ---- what a step touches, whatever the state ----

  /** Only the owner's release takes the lease away from a holder; only Send reaches the provider;
      a latch fires once; the terminal and its counter move as the two writes say. */
  ghost predicate Moves(d: Durable, pc: Pc, me: TaskId, r: (Durable, Pc)) {
    && LeaseMoves(d, pc, me, r)
    && (pc != Send ==> r.0.provider == d.provider)
    && d.fired <= r.0.fired
    && (r.1.Mark? ==> r.1.point !in d.fired && r.1.point in r.0.fired)
    && (r.1.Blocked? ==> pc.Mark?)
    && (r.1 == CountTerminal <==> pc.InsertTerminal? && d.terminal == None)
    && (r.1 == CountTerminal ==> r.0.terminal.Some?)
    && (r.0.terminal != d.terminal ==> d.terminal == None && r.0.terminal.Some? && r.1 == CountTerminal)
    && r.0.terminalWrites == d.terminalWrites + if pc == CountTerminal then 1 else 0
  }

  ghost predicate LeaseMoves(d: Durable, pc: Pc, me: TaskId, r: (Durable, Pc)) {
    || r.0.lease == d.lease
    || (pc == Acquire && d.lease == None && r.0.lease == Some(me))
    || ((pc == ReleaseReplay || pc == ReleaseFinal) && d.lease == Some(me) && r.0.lease == None && r.1 == ReadCount)
  }

  lemma EntryMoves(d: Durable, pc: Pc, me: TaskId)
    requires InEntry(pc)
    ensures Moves(d, pc, me, StepEntry(d, pc, me))
  {}

  lemma PrepareMoves(d: Durable, pc: Pc, me: TaskId, cmd: Command)
    requires InPrepare(pc)
    ensures Moves(d, pc, me, StepPrepare(d, pc, me, cmd))
  {}

  lemma ProviderMoves(d: Durable, pc: Pc, me: TaskId, cmd: Command, net: Net)
    requires InProvider(pc)
    ensures Moves(d, pc, me, StepProvider(d, pc, cmd, net))
  {}

  lemma FinishMoves(d: Durable, pc: Pc, me: TaskId, cmd: Command)
    requires !InEntry(pc) && !InPrepare(pc) && !InProvider(pc)
    ensures Moves(d, pc, me, StepFinish(d, pc, me, cmd))
  {}

  lemma StepMoves(d: Durable, pc: Pc, me: TaskId, cmd: Command, net: Net)
    ensures Moves(d, pc, me, Step(d, pc, me, cmd, net))
  {
    if InEntry(pc) {
      EntryMoves(d, pc, me);
    } else if InPrepare(pc) {
      PrepareMoves(d, pc, me, cmd);
    } else if InProvider(pc) {
      ProviderMoves(d, pc, me, cmd, net);
    } else {
      FinishMoves(d, pc, me, cmd);
    }
  }

  lemma RunKeepsEntry(mode: Mode, cmds: TaskId -> Command, s: State, t: TaskId, net: Net)
    requires Inv(mode, cmds, s) && Allowed(mode, s, Run(t, net))
    requires InEntry(s.At(t))
    ensures Inv(mode, cmds, Next(cmds, s, Run(t, net)))
    ensures Advances(s.d, Next(cmds, s, Run(t, net)).d)
    ensures NoReplay(s.d) ==> NoReplay(Next(cmds, s, Run(t, net)).d)
  {
    var s' := Next(cmds, s, Run(t, net));
    EntryKeeps(s.d, s.At(t), t, cmds(t), net);
    assert forall u: TaskId :: u != t ==> s'.At(u) == s.At(u);
    if PastGate(s'.At(t)) {
      forall u: TaskId | PastGate(s'.At(u)) ensures u == t {
        assert mode.Solo? ==> s.pcs.Keys <= {mode.only};
      }
    }
  }

  /** The holder's step r changes nothing for the other tasks. */
  lemma HolderStep(mode: Mode, cmds: TaskId -> Command, s: State, t: TaskId, r: (Durable, Pc))
    requires Inv(mode, cmds, s) && PastGate(s.At(t)) && (mode.Solo? ==> t == mode.only)
    requires StepKeeps(s.d, cmds(t), r) && LeaseMoves(s.d, s.At(t), t, r)
    ensures Inv(mode, cmds, State(r.0, s.pcs[t := r.1]))
  {
    var s' := State(r.0, s.pcs[t := r.1]);
    assert forall u: TaskId :: u != t ==> s'.At(u) == s.At(u) && !PastGate(s'.At(u));
  }

  lemma RunKeepsPastGate(mode: Mode, cmds: TaskId -> Command, s: State, t: TaskId, net: Net)
    requires Inv(mode, cmds, s) && Allowed(mode, s, Run(t, net))
    requires PastGate(s.At(t))
    ensures Inv(mode, cmds, Next(cmds, s, Run(t, net)))
    ensures Advances(s.d, Next(cmds, s, Run(t, net)).d)
    ensures NoReplay(s.d) ==> NoReplay(Next(cmds, s, Run(t, net)).d)
  {
    StepPastGate(s.d, s.At(t), t, cmds(t), net);
    StepMoves(s.d, s.At(t), t, cmds(t), net);
    HolderStep(mode, cmds, s, t, Step(s.d, s.At(t), t, cmds(t), net));
  }

  /** A delivery or a kill moves no durable state and lets nobody past the gate. */
  lemma PcsKeep(mode: Mode, cmds: TaskId -> Command, s: State, s': State)
    requires Inv(mode, cmds, s) && s'.d == s.d
    requires mode.Solo? ==> s'.pcs.Keys <= {mode.only}
    requires forall u: TaskId :: PastGate(s'.At(u)) ==> s'.At(u) == s.At(u)
    ensures Inv(mode, cmds, s')
  {}

  /** An expiry or a lapse moves no delivery and no artifact. */
  lemma TimersKeep(mode: Mode, cmds: TaskId -> Command, s: State, l: Label)
    requires Inv(mode, cmds, s) && Allowed(mode, s, l) && (l.Expire? || l.Lapse?)
    ensures Inv(mode, cmds, Next(cmds, s, l)) && Advances(s.d, Next(cmds, s, l).d)
    ensures Next(cmds, s, l).d.provider == s.d.provider
  {
    var s' := Next(cmds, s, l);
    assert forall u: TaskId :: s'.At(u) == s.At(u);
    assert mode == Fenced && l.Expire? ==> forall u: TaskId :: !PastGate(s.At(u));
    assert forall pc: Pc, c: Command :: Knows(s.d, pc, c) ==> Knows(s'.d, pc, c);
  }

  /** Every allowed step keeps the invariant, only moves artifacts forward, and never makes
      the provider replay a stored submission. */
  lemma NextKeeps(mode: Mode, cmds: TaskId -> Command, s: State, l: Label)
    requires Inv(mode, cmds, s) && Allowed(mode, s, l)
    ensures Inv(mode, cmds, Next(cmds, s, l))
    ensures Advances(s.d, Next(cmds, s, l).d)
    ensures NoReplay(s.d) ==> NoReplay(Next(cmds, s, l).d)
  {
    if l.Expire? || l.Lapse? {
      TimersKeep(mode, cmds, s, l);
    } else if l.Run? && InEntry(s.At(l.t)) {
      RunKeepsEntry(mode, cmds, s, l.t, l.net);
    } else if l.Run? && PastGate(s.At(l.t)) {
      RunKeepsPastGate(mode, cmds, s, l.t, l.net);
    } else {
      PcsKeep(mode, cmds, s, Next(cmds, s, l));
    }
  }

  lemma AdvancesTrans(a: Durable, b: Durable, c: Durable)
    requires Advances(a, b) && Advances(b, c)
    ensures Advances(a, c)
  {}

  lemma {:induction false} RunKeeps(mode: Mode, cmds: TaskId -> Command, s: State, ls: seq<Label>)
    requires Inv(mode, cmds, s) && AllowedRun(mode, cmds, s, ls)
    ensures Inv(mode, cmds, Exec(cmds, s, ls))
    ensures Advances(s.d, Exec(cmds, s, ls).d)
    ensures NoReplay(s.d) ==> NoReplay(Exec(cmds, s, ls).d)
    decreases |ls|
  {
    if ls != [] {
      NextKeeps(mode, cmds, s, ls[0]);
      RunKeeps(mode, cmds, Next(cmds, s, ls[0]), ls[1..]);
      AdvancesTrans(s.d, Next(cmds, s, ls[0]).d, Exec(cmds, s, ls).d);
    }
  }

  // ---- the terminal and its counter, in any run at all ----

  /** At most one delivery is between the insert and the count, and the count is still open then. */
  ghost predicate CountSound(s: State) {
    && (forall t: TaskId, u: TaskId :: s.At(t) == CountTerminal && s.At(u) == CountTerminal ==> t == u)
    && (forall t: TaskId :: s.At(t) == CountTerminal ==> s.d.terminal.Some? && s.d.terminalWrites == 0)
    && s.d.terminalWrites <= 1
    && (s.d.terminalWrites == 1 ==> s.d.terminal.Some?)
  }

  lemma MoveCounts(s: State, t: TaskId, r: (Durable, Pc))
    requires CountSound(s) && Moves(s.d, s.At(t), t, r)
    ensures CountSound(State(r.0, s.pcs[t := r.1]))
    ensures s.d.terminal.Some? ==> r.0.terminal == s.d.terminal
    ensures s.d.terminalWrites <= r.0.terminalWrites
  {
    var s' := State(r.0, s.pcs[t := r.1]);
    assert forall u: TaskId :: u != t ==> s'.At(u) == s.At(u);
    assert s'.At(t) == r.1;
  }

  lemma NextCounts(cmds: TaskId -> Command, s: State, l: Label)
    requires CountSound(s)
    ensures CountSound(Next(cmds, s, l))
    ensures s.d.terminal.Some? ==> Next(cmds, s, l).d.terminal == s.d.terminal
    ensures s.d.terminalWrites <= Next(cmds, s, l).d.terminalWrites
  {
    var s' := Next(cmds, s, l);
    if l.Run? {
      if s.At(l.t) != Idle {
        StepMoves(s.d, s.At(l.t), l.t, cmds(l.t), l.net);
        MoveCounts(s, l.t, Step(s.d, s.At(l.t), l.t, cmds(l.t), l.net));
      }
    } else {
      assert forall u: TaskId :: s'.At(u) == CountTerminal ==> s.At(u) == CountTerminal;
    }
  }

  /** Whatever is killed, lost, expired or interleaved, the terminal is written once and counted at most once. */
  lemma {:induction false} TerminalCountedAtMostOnce(cmds: TaskId -> Command, s: State, ls: seq<Label>)
    requires CountSound(s)
    ensures CountSound(Exec(cmds, s, ls))
    ensures s.d.terminal.Some? ==> Exec(cmds, s, ls).d.terminal == s.d.terminal
    ensures s.d.terminalWrites <= Exec(cmds, s, ls).d.terminalWrites
    decreases |ls|
  {
    if ls != [] {
      NextCounts(cmds, s, ls[0]);
      TerminalCountedAtMostOnce(cmds, Next(cmds, s, ls[0]), ls[1..]);
    }
  }

  // ---- what holds in every reachable state ----

  /** In every state of any run at all, the terminal is counted at most once, and only once it exists. In every
      state of every allowed run, at most one delivery is past the lease gate, and the artifacts never claim more
      than what is durable. */
  lemma ReachableStatesAreSafe(mode: Mode, cmds: TaskId -> Command, ls: seq<Label>)
    ensures var d := Exec(cmds, START, ls).d;
            d.terminalWrites <= 1 && (d.terminalWrites == 1 ==> d.terminal.Some?)
    ensures AllowedRun(mode, cmds, START, ls) ==>
              var s := Exec(cmds, START, ls);
              && (forall t: TaskId, u: TaskId :: PastGate(s.At(t)) && PastGate(s.At(u)) ==> t == u)
              && (s.d.event == Final ==> s.d.receipt.Some? && Successful(s.d.receipt.value.status))
              && (s.d.terminal.Some? ==>
                    && s.d.event == Final && s.d.action == Final && s.d.job == Final
                    && s.d.outbox == Delivered(s.d.terminal.value)
                    && s.d.receipt.Some? && s.d.receipt.value.status == s.d.terminal.value
                    && Successful(s.d.terminal.value)
                    && s.d.receipt.value.key in s.d.provider.records
                    && s.d.provider.records[s.d.receipt.value.key] == s.d.terminal.value)
              && NoReplay(s.d)
  {
    TerminalCountedAtMostOnce(cmds, START, ls);
    if AllowedRun(mode, cmds, START, ls) {
      RunKeeps(mode, cmds, START, ls);
    }
  }

  /** Artifacts only move absent, initial, final; receipt, terminal and provider records are
      write-once; once the terminal exists the provider receives nothing more. */
  lemma ArtifactsOnlyAdvance(mode: Mode, cmds: TaskId -> Command, ls: seq<Label>, more: seq<Label>)
    requires AllowedRun(mode, cmds, START, ls + more)
    ensures Advances(Exec(cmds, START, ls).d, Exec(cmds, START, ls + more).d)
  {
    AllowedSplit(mode, cmds, START, ls, more);
    RunKeeps(mode, cmds, START, ls);
    RunKeeps(mode, cmds, Exec(cmds, START, ls), more);
    ExecAppend(cmds, START, ls, more);
  }

  lemma {:induction false} AllowedSplit(mode: Mode, cmds: TaskId -> Command, s: State, a: seq<Label>, b: seq<Label>)
    requires AllowedRun(mode, cmds, s, a + b)
    ensures AllowedRun(mode, cmds, s, a) && AllowedRun(mode, cmds, Exec(cmds, s, a), b)
    decreases |a|
  {
    if a == [] {
      assert a + b == b;
    } else {
      assert (a + b)[1..] == a[1..] + b;
      AllowedSplit(mode, cmds, Next(cmds, s, a[0]), a[1..], b);
    }
  }
}
