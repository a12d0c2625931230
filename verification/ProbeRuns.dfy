/** Further facts about runs of the probe protocol: the provider's ledger, the fault-point
    latches, the terminal-write counter and owners that arrive late. */
module ProbeRuns {
  import opened Basics
  import opened ProbeMachine
  import opened ProbeSafety

  // ---- the provider, in any run at all ----

  /** The log and the stored attempts agree, and no key is recorded twice. */
  ghost predicate Ledger(p: Provider) {
    && (forall i :: 0 <= i < |p.log| && p.log[i].Recorded? ==>
          p.log[i].key in p.records && p.records[p.log[i].key] == p.log[i].status)
    && (forall k <- p.records :: Recorded(k, p.records[k]) in p.log)
    && (forall i, j :: 0 <= i < j < |p.log| && p.log[i].Recorded? && p.log[j].Recorded? ==>
          p.log[i].key != p.log[j].key)
  }

  lemma SubmitKeepsLedger(p: Provider, key: Key, w: WritebackStatus)
    requires Ledger(p)
    ensures Ledger(p.Submit(key, w))
  {
    var q := p.Submit(key, w);
    forall k <- q.records ensures Recorded(k, q.records[k]) in q.log {
      if k in p.records {
        assert Recorded(k, p.records[k]) in p.log;
      } else {
        assert q.log[|p.log|] == Recorded(k, q.records[k]);
      }
    }
  }

  lemma RejectKeepsLedger(p: Provider, key: Key)
    requires Ledger(p)
    ensures Ledger(Provider(p.records, p.log + [Rejected(key)]))
  {
    var q := Provider(p.records, p.log + [Rejected(key)]);
    forall k <- q.records ensures Recorded(k, q.records[k]) in q.log {
      assert Recorded(k, p.records[k]) in p.log;
    }
  }

  lemma SendKeepsLedger(d: Durable, cmd: Command, net: Net)
    requires Ledger(d.provider)
    ensures Ledger(StepSend(d, cmd, net).0.provider)
  {
    match net {
      case Refused => RejectKeepsLedger(d.provider, cmd.key);
      case Answered(w) => SubmitKeepsLedger(d.provider, cmd.key, w);
      case LostAfter(w) => SubmitKeepsLedger(d.provider, cmd.key, w);
      case Fine => SubmitKeepsLedger(d.provider, cmd.key, Accepted);
      case Fails =>
      case Invalid =>
    }
  }

  lemma StepKeepsLedger(d: Durable, pc: Pc, me: TaskId, cmd: Command, net: Net)
    requires Ledger(d.provider)
    ensures Ledger(Step(d, pc, me, cmd, net).0.provider)
  {
    if pc == Send {
      SendKeepsLedger(d, cmd, net);
    } else {
      StepMoves(d, pc, me, cmd, net);
    }
  }

  /** Whatever is killed, lost, expired or interleaved, a key is recorded at most once. */
  lemma {:induction false} RecordedAtMostOnce(cmds: TaskId -> Command, s: State, ls: seq<Label>)
    requires Ledger(s.d.provider)
    ensures Ledger(Exec(cmds, s, ls).d.provider)
    decreases |ls|
  {
    if ls != [] {
      var l := ls[0];
      if l.Run? && s.At(l.t) != Idle {
        StepKeepsLedger(s.d, s.At(l.t), l.t, cmds(l.t), l.net);
      }
      RecordedAtMostOnce(cmds, Next(cmds, s, l), ls[1..]);
    }
  }

  // ---- the one-shot latches, in any run at all ----

  ghost predicate Blocks(cmds: TaskId -> Command, s: State, l: Label, p: FaultPoint) {
    l.Run? && s.At(l.t) != Idle && Next(cmds, s, l).At(l.t) == Mark(p)
  }

  ghost function BlockCount(cmds: TaskId -> Command, s: State, ls: seq<Label>, p: FaultPoint): nat
    decreases |ls|
  {
    if ls == [] then 0
    else (if Blocks(cmds, s, ls[0], p) then 1 else 0) + BlockCount(cmds, Next(cmds, s, ls[0]), ls[1..], p)
  }

  /** How often the latch of a fault point runs out of time. */
  ghost function Lapses(ls: seq<Label>, p: FaultPoint): nat {
    if ls == [] then 0 else (if ls[0] == Lapse(p) then 1 else 0) + Lapses(ls[1..], p)
  }

  /** Each setting of a fault point's latch stops one delivery: however many tasks and redeliveries there are, a point
      blocks at most once, plus once for every time its latch lapsed. */
  lemma {:induction false} EachPointBlocksOnce(cmds: TaskId -> Command, s: State, ls: seq<Label>, p: FaultPoint)
    ensures BlockCount(cmds, s, ls, p) <= (if p in s.d.fired then 0 else 1) + Lapses(ls, p)
    decreases |ls|
  {
    if ls != [] {
      var l := ls[0];
      if l.Run? && s.At(l.t) != Idle {
        StepMoves(s.d, s.At(l.t), l.t, cmds(l.t), l.net);
      }
      EachPointBlocksOnce(cmds, Next(cmds, s, l), ls[1..], p);
    }
  }

  // ---- the terminal-write counter ----

  /** Some delivery was killed after inserting the terminal and before counting it. */
  ghost predicate KilledUncounted(cmds: TaskId -> Command, s: State, ls: seq<Label>)
    decreases |ls|
  {
    ls != [] && ((ls[0].Kill? && s.At(ls[0].t) == CountTerminal)
                 || KilledUncounted(cmds, Next(cmds, s, ls[0]), ls[1..]))
  }

  /** Kills only hit deliveries that are blocked at a fault point (or no live delivery). */
  ghost predicate KillsOnlyAtMarks(cmds: TaskId -> Command, s: State, ls: seq<Label>)
    decreases |ls|
  {
    ls == [] || ((ls[0].Kill? ==> s.At(ls[0].t) == Idle || s.At(ls[0].t).Blocked?)
                 && KillsOnlyAtMarks(cmds, Next(cmds, s, ls[0]), ls[1..]))
  }

  ghost predicate Uncounted(s: State) {
    s.d.terminal.Some? && s.d.terminalWrites == 0 && forall t: TaskId :: s.At(t) != CountTerminal
  }

  lemma RunUncounted(s: State, t: TaskId, r: (Durable, Pc))
    requires CountSound(s) && s.At(t) != Idle && Moves(s.d, s.At(t), t, r)
    ensures Uncounted(State(r.0, s.pcs[t := r.1])) <==> Uncounted(s)
  {
    var s' := State(r.0, s.pcs[t := r.1]);
    assert s'.At(t) == r.1;
    assert forall u: TaskId :: u != t ==> s'.At(u) == s.At(u);
  }

  lemma QuietUncounted(cmds: TaskId -> Command, s: State, l: Label)
    requires CountSound(s) && !l.Run?
    ensures Uncounted(Next(cmds, s, l)) <==> Uncounted(s) || (l.Kill? && s.At(l.t) == CountTerminal)
  {
    var s' := Next(cmds, s, l);
    if l.Expire? || l.Lapse? {
      assert forall u: TaskId :: s'.At(u) == s.At(u);
    } else {
      assert forall u: TaskId :: u != l.t ==> s'.At(u) == s.At(u);
      if s.At(l.t) == CountTerminal {
        assert forall u: TaskId :: u != l.t ==> s.At(u) != CountTerminal;
      }
    }
  }

  lemma NextUncounted(cmds: TaskId -> Command, s: State, l: Label)
    requires CountSound(s)
    ensures Uncounted(Next(cmds, s, l)) <==> Uncounted(s) || (l.Kill? && s.At(l.t) == CountTerminal)
  {
    if l.Run? {
      if s.At(l.t) != Idle {
        var r := Step(s.d, s.At(l.t), l.t, cmds(l.t), l.net);
        StepMoves(s.d, s.At(l.t), l.t, cmds(l.t), l.net);
        RunUncounted(s, l.t, r);
      }
    } else {
      QuietUncounted(cmds, s, l);
    }
  }

  /** In any run at all, the terminal exists with no counted write exactly when a kill fell between the two. */
  lemma {:induction false} UncountedIffKilledBetween(cmds: TaskId -> Command, s: State, ls: seq<Label>)
    requires CountSound(s)
    ensures Uncounted(Exec(cmds, s, ls)) <==> Uncounted(s) || KilledUncounted(cmds, s, ls)
    decreases |ls|
  {
    if ls != [] {
      NextCounts(cmds, s, ls[0]);
      NextUncounted(cmds, s, ls[0]);
      UncountedIffKilledBetween(cmds, Next(cmds, s, ls[0]), ls[1..]);
    }
  }

  lemma {:induction false} MarkedKillsLoseNoCount(cmds: TaskId -> Command, s: State, ls: seq<Label>)
    requires KillsOnlyAtMarks(cmds, s, ls)
    ensures !KilledUncounted(cmds, s, ls)
    decreases |ls|
  {
    if ls != [] {
      MarkedKillsLoseNoCount(cmds, Next(cmds, s, ls[0]), ls[1..]);
    }
  }

  // ---- owners that arrive after another one ----

  ghost predicate NoExpiry(ls: seq<Label>) {
    Expire !in ls
  }

  lemma {:induction false} NoExpiryIsFenced(cmds: TaskId -> Command, s: State, ls: seq<Label>)
    requires NoExpiry(ls)
    ensures AllowedRun(Fenced, cmds, s, ls)
    decreases |ls|
  {
    if ls != [] {
      assert ls[0] in ls && forall l :: l in ls[1..] ==> l in ls;
      NoExpiryIsFenced(cmds, Next(cmds, s, ls[0]), ls[1..]);
    }
  }

  lemma {:induction false} HandOverNeedsTerminal(cmds: TaskId -> Command, s: State, ls: seq<Label>, u: TaskId)
    requires Inv(Fenced, cmds, s) && NoExpiry(ls)
    requires s.d.lease == Some(u) || s.d.terminal.Some?
    ensures var e := Exec(cmds, s, ls).d; e.lease == Some(u) || e.terminal.Some?
    decreases |ls|
  {
    if ls != [] {
      var l := ls[0];
      var s' := Next(cmds, s, l);
      assert l in ls && forall x :: x in ls[1..] ==> x in ls;
      NextKeeps(Fenced, cmds, s, l);
      if l.Run? && PastGate(s.At(l.t)) {
        StepMoves(s.d, s.At(l.t), l.t, cmds(l.t), l.net);
      } else if l.Run? && InEntry(s.At(l.t)) {
        EntryKeeps(s.d, s.At(l.t), l.t, cmds(l.t), l.net);
      }
      HandOverNeedsTerminal(cmds, s', ls[1..], u);
    }
  }

  /** Without lease expiry, a second owner only gets past the gate after the first one wrote the
      terminal; from then on nobody submits anything. */
  lemma LateOwnerSubmitsNothing(cmds: TaskId -> Command, ls: seq<Label>, more: seq<Label>, rest: seq<Label>,
                                u: TaskId, t: TaskId)
    requires NoExpiry(ls + more + rest)
    requires t != u
    requires PastGate(Exec(cmds, START, ls).At(u))
    requires PastGate(Exec(cmds, START, ls + more).At(t))
    ensures Exec(cmds, START, ls + more).d.terminal.Some?
    ensures Exec(cmds, START, ls + more + rest).d.provider == Exec(cmds, START, ls + more).d.provider
  {
    assert forall l :: l in ls + more ==> l in ls + more + rest;
    assert forall l :: l in ls ==> l in ls + more;
    assert forall l :: l in more ==> l in ls + more;
    NoExpiryIsFenced(cmds, START, ls);
    NoExpiryIsFenced(cmds, START, ls + more);
    NoExpiryIsFenced(cmds, START, ls + more + rest);
    RunKeeps(Fenced, cmds, START, ls);
    RunKeeps(Fenced, cmds, START, ls + more);
    ExecAppend(cmds, START, ls, more);
    HandOverNeedsTerminal(cmds, Exec(cmds, START, ls), more, u);
    ArtifactsOnlyAdvance(Fenced, cmds, ls + more, rest);
  }

  /** The expiry condition is needed: a lease that expires under a live holder lets any waiting task in beside it. */
  lemma ExpiryUnderAHolderAdmitsAnother(cmds: TaskId -> Command, s: State, t: TaskId, u: TaskId)
    requires t != u && PastGate(s.At(t)) && s.At(u) == Idle
    ensures var entry := seq(6, _ => Run(u, Fine));
            var e := Exec(cmds, s, [Expire, Deliver(u)] + entry);
            PastGate(e.At(t)) && PastGate(e.At(u))
  {
    var entry := seq(6, _ => Run(u, Fine));
    ExecAppend(cmds, s, [Expire, Deliver(u)], entry);
    var s0 := Next(cmds, s, Expire);
    var s1 := Next(cmds, s0, Deliver(u));
    assert [Expire, Deliver(u)][1..] == [Deliver(u)] && [Deliver(u)][1..] == [];
    assert Exec(cmds, s0, [Deliver(u)]) == s1;
    Enters(cmds, s1, u, entry);
    assert s0.At(t) == s.At(t) && s1.At(t) == s.At(t);
  }

  /** Steps left until a delivery in the entry part reaches the artifacts, when the lease is free. */
  ghost function EntryLeft(pc: Pc): nat {
    match pc
    case Cover => 6
    case CountAttempt => 5
    case PushAttempt => 4
    case NoteBroker => 3
    case GetOwner => 2
    case Acquire => 1
    case _ => 0
  }

  /** That many steps take a delivery through a free gate and leave every other task where it was. */
  lemma {:induction false} Enters(cmds: TaskId -> Command, s: State, u: TaskId, entry: seq<Label>)
    requires InEntry(s.At(u)) && s.d.lease == None && |entry| == EntryLeft(s.At(u))
    requires forall i :: 0 <= i < |entry| ==> entry[i] == Run(u, Fine)
    ensures var e := Exec(cmds, s, entry); e.At(u) == ReadEvent && forall t: TaskId :: t != u ==> e.At(t) == s.At(t)
    ensures var e := Exec(cmds, s, entry).d;
            && e.lease == Some(u)
            && e.(attempts := s.d.attempts, workerAttempts := s.d.workerAttempts, lease := None) == s.d
    decreases |entry|
  {
    var s' := Next(cmds, s, Run(u, Fine));
    assert entry[0] == Run(u, Fine) && s'.At(u) == StepEntry(s.d, s.At(u), u).1;
    if s.At(u) == Acquire {
      assert entry[1..] == [];
    } else {
      Enters(cmds, s', u, entry[1..]);
    }
  }
}
