/** Every step of the event loop keeps the invariant. */
module LoopSteps {
  import opened LoopModel
  import opened LoopInvariant

  // ---------------------------------------------------------------------------------------------------
  // The log
  // ---------------------------------------------------------------------------------------------------

  lemma LogSnoc(log: seq<Event>, e: Event, c: Chain)
    ensures Tried(log + [e], c) == Tried(log, c) + if e.Attempt? && e.chain == c then [e.pos] else []
    ensures Conclusions(log + [e], c) == Conclusions(log, c) + if Concludes(e, c) then 1 else 0
  {
    assert (log + [e])[..|log|] == log;
  }

  lemma {:induction false} NoConclusion(log: seq<Event>, c: Chain)
    requires Conclusions(log, c) == 0
    ensures forall i | 0 <= i < |log| :: !Concludes(log[i], c)
  {
    if log != [] {
      NoConclusion(log[..|log| - 1], c);
    }
  }

  predicate Neutral(e: Event) {
    !e.Attempt? && !e.Connected? && !e.Failed?
  }

  lemma NeutralKeepsHistory(chains: map<Chain, Attempts>, log: seq<Event>, e: Event)
    requires HistoryInv(chains, log) && Neutral(e)
    ensures HistoryInv(chains, log + [e])
  {
    forall c: Chain {
      LogSnoc(log, e, c);
    }
  }

  lemma ConclusionKeepsHistory(chains: map<Chain, Attempts>, log: seq<Event>, e: Event)
    requires HistoryInv(chains, log) && (e.Connected? || e.Failed?)
    requires e.chain in chains && !chains[e.chain].done
    ensures HistoryInv(chains[e.chain := chains[e.chain].(done := true)], log + [e])
  {
    forall c: Chain {
      LogSnoc(log, e, c);
    }
    FirstConclusion(log, e);
  }

  /** The first conclusion of a chain follows none. */
  lemma FirstConclusion(log: seq<Event>, e: Event)
    requires ConclusionIsLast(log) && (e.Connected? || e.Failed? || e.Attempt?) && Conclusions(log, e.chain) == 0
    ensures ConclusionIsLast(log + [e])
  {
    NoConclusion(log, e.chain);
    forall i, j | 0 <= i < j < |log + [e]| && ((log + [e])[i].Connected? || (log + [e])[i].Failed?)
      ensures !Concludes((log + [e])[j], (log + [e])[i].chain)
      ensures !((log + [e])[j].Attempt? && (log + [e])[j].chain == (log + [e])[i].chain)
    {
      if j == |log| {
        assert !Concludes(log[i], e.chain);
      }
    }
  }

  lemma AttemptKeepsHistory(chains: map<Chain, Attempts>, log: seq<Event>, c: Chain, a: Attempts)
    requires HistoryInv(chains, log) && a.tried > 0 && !a.done
    requires if c in chains then a.tried == chains[c].tried + 1 && !chains[c].done else a.tried == 1
    ensures HistoryInv(chains[c := a], log + [Attempt(c, a.tried - 1)])
  {
    forall d: Chain {
      LogSnoc(log, Attempt(c, a.tried - 1), d);
    }
    FirstConclusion(log, Attempt(c, a.tried - 1));
    assert Upto(a.tried) == Upto(a.tried - 1) + [a.tried - 1];
  }

  // ---------------------------------------------------------------------------------------------------
  // Steps that only move the handler, write the log or conclude a chain
  // ---------------------------------------------------------------------------------------------------

  /** `s'` differs from `s` at most in the handler's place, the log and the chains' history. */
  predicate OnlyMoves(s: Loop, s': Loop) {
    s' == s.(ctl := s'.ctl, log := s'.log, chains := s'.chains)
  }

  lemma MoveKeepsFds(s: Loop, s': Loop)
    requires FdInv(s) && OnlyMoves(s, s')
    ensures FdInv(s')
  {
  }

  lemma MoveKeepsReg(s: Loop, s': Loop)
    requires RegInv(s) && OnlyMoves(s, s')
    requires s'.ctl.Run? ==> s'.ctl.fd in s.reg && s.reg[s'.ctl.fd] == Entry(s'.ctl.hdl, s'.ctl.timer)
    ensures RegInv(s')
  {
  }

  /** `e` joins the log, unless there is none. */
  predicate Logs(s: Loop, s': Loop, e: Option<Event>) {
    s'.log == s.log + if e.Some? then [e.value] else []
  }

  lemma MoveKeepsTimers(s: Loop, s': Loop, e: Option<Event>)
    requires TimerInv(s) && OnlyMoves(s, s') && Logs(s, s', e)
    requires e.Some? ==> !e.value.Armed?
    ensures TimerInv(s')
  {
    forall t | IsAimed(s', t)
      ensures IsAimed(s, t)
    {
    }
  }

  /** Leaving the connect callback and leaving a handler that closes are the moves that matter to LogInv. */
  predicate StaysPut(s: Loop, s': Loop) {
    s.ctl.Run? && (s.ctl.pc == InConnect || s.ctl.pc == Leave(false)) ==> s'.ctl == s.ctl
  }

  lemma MoveKeepsLog(s: Loop, s': Loop, e: Option<Event>)
    requires LogInv(s) && OnlyMoves(s, s') && Logs(s, s', e) && StaysPut(s, s')
    requires e.Some? ==> !e.value.Connected? && !e.value.TimedOut? && !e.value.Disconnected?
    ensures LogInv(s')
  {
    forall t | IsAimed(s', t)
      ensures IsAimed(s, t)
    {
    }
    forall h | IsConnected(s', h)
      ensures IsConnected(s, h)
    {
    }
  }

  /** A handler on its way out stays on its way out, and a handler inside a callback goes out from there. */
  predicate KeepsGoing(s: Loop, s': Loop) {
    s.ctl.Run? && !(s.ctl.pc.Enter? || s.ctl.pc.Open? || s.ctl.pc == Leave(true)) ==>
      && s'.ctl.Run? && s'.ctl.hdl == s.ctl.hdl
      && if s.ctl.pc == Closing || s.ctl.pc == Leave(false) then s'.ctl.pc == Closing || s'.ctl.pc == Leave(false)
         else s'.ctl.pc == s.ctl.pc || s'.ctl.pc == Closing
  }

  lemma MoveKeepsChains(s: Loop, s': Loop)
    requires ChainInv(s) && OnlyMoves(s, s') && s'.chains == s.chains && KeepsGoing(s, s')
    requires s.ctl.Run? ==> s.ctl.hdl in s.added
    ensures ChainInv(s')
  {
    forall id | Retired(s, id)
      ensures Retired(s', id)
    {
    }
    forall id | Spent(s, id)
      ensures Spent(s', id)
    {
    }
  }

  /** A move that concludes chain `c`, whose last handle is thereby spent. */
  lemma ConclusionKeepsChains(s: Loop, s': Loop, c: Chain)
    requires ChainInv(s) && OnlyMoves(s, s') && KeepsGoing(s, s')
    requires s.ctl.Run? ==> s.ctl.hdl in s.added
    requires c in s.chains && s'.chains == s.chains[c := s.chains[c].(done := true)]
    requires Spent(s', s.chains[c].cur)
    ensures ChainInv(s')
  {
    forall id | Retired(s, id)
      ensures Retired(s', id)
    {
    }
    forall id | Spent(s, id)
      ensures Spent(s', id)
    {
    }
  }

  /** The dispatched entry is still there with the handle and timer taken from it, and the kernel knows it. */
  lemma DispatchedIsRegistered(s: Loop)
    requires Inv(s) && s.ctl.Run?
    ensures s.ctl.fd in s.reg && s.reg[s.ctl.fd] == Entry(s.ctl.hdl, s.ctl.timer) && s.ctl.fd in s.interest
    ensures s.ctl.hdl in s.objs && s.ctl.hdl < s.next && s.ctl.hdl in s.added && Registered(s, s.ctl.hdl)
  {
    hide TimerInv, LogInv, ChainInv, HistoryInv, DisconnectIsLast;
  }

  /** A handler that has not returned did not disconnect. */
  lemma NotDisconnected(s: Loop)
    requires Inv(s) && s.ctl.Run? && s.ctl.pc != Leave(false)
    ensures Disconnected(s.ctl.hdl) !in s.log
  {
    DispatchedIsRegistered(s);
  }

  lemma OtherEventKeepsLast(log: seq<Event>, e: Event)
    requires DisconnectIsLast(log)
    requires (e.Message? || e.Disconnected?) ==> Disconnected(e.hdl) !in log
    ensures DisconnectIsLast(log + [e])
  {
  }

  /** A handle that can still come to a decision is the last attempt of an unfinished chain. */
  lemma ActiveIsCurrent(s: Loop)
    requires Inv(s) && Connecting(s)
    ensures var k := s.objs[s.ctl.hdl].kind;
            && k.chain in s.chains && s.chains[k.chain].cur == s.ctl.hdl && !s.chains[k.chain].done
            && k.pos + 1 == s.chains[k.chain].tried
    ensures s.ctl.hdl in s.added && Registered(s, s.ctl.hdl)
  {
    assert !Removed(s, s.ctl.hdl) && !Doomed(s, s.ctl.hdl) && !Spent(s, s.ctl.hdl);
  }

  lemma PassKeepsInv(s: Loop)
    requires Inv(s) && Enabled(s, Pass)
    ensures Inv(Apply(s, Pass))
  {
    PlainMoveKeepsInv(s, Apply(s, Pass));
  }

  /** A move without log entry and without change of chain. */
  lemma PlainMoveKeepsInv(s: Loop, s': Loop)
    requires Inv(s) && OnlyMoves(s, s') && s'.chains == s.chains && s'.log == s.log
    requires StaysPut(s, s') && KeepsGoing(s, s') && CtlInv(s')
    requires s'.ctl.Run? ==> s'.ctl.fd in s.reg && s.reg[s'.ctl.fd] == Entry(s'.ctl.hdl, s'.ctl.timer)
    ensures Inv(s')
  {
    hide FdInv, RegInv, TimerInv, LogInv, ChainInv, HistoryInv, DisconnectIsLast;
    if s.ctl.Run? {
      DispatchedIsRegistered(s);
    }
    MoveKeepsFds(s, s');
    MoveKeepsReg(s, s');
    MoveKeepsTimers(s, s', None);
    MoveKeepsLog(s, s', None);
    MoveKeepsChains(s, s');
  }

  lemma HangUpKeepsInv(s: Loop)
    requires Inv(s) && Enabled(s, HangUp)
    ensures Inv(Apply(s, HangUp))
  {
    PlainMoveKeepsInv(s, Apply(s, HangUp));
  }

  lemma ServeKeepsInv(s: Loop)
    requires Inv(s) && Enabled(s, Serve)
    ensures Inv(Apply(s, Serve))
  {
    PlainMoveKeepsInv(s, Apply(s, Serve));
  }

  lemma DispatchKeepsInv(s: Loop, fd: Fd)
    requires Inv(s) && Enabled(s, Dispatch(fd))
    ensures Inv(Apply(s, Dispatch(fd)))
  {
    PlainMoveKeepsInv(s, Apply(s, Dispatch(fd)));
  }

  lemma DeliverKeepsInv(s: Loop)
    requires Inv(s) && Enabled(s, Deliver)
    ensures Inv(Apply(s, Deliver))
  {
    hide FdInv, RegInv, TimerInv, LogInv, ChainInv, HistoryInv, DisconnectIsLast;
    var s', e := Apply(s, Deliver), Message(s.ctl.hdl);
    DispatchedIsRegistered(s);
    NotDisconnected(s);
    OtherEventKeepsLast(s.log, e);
    MoveKeepsFds(s, s');
    MoveKeepsReg(s, s');
    MoveKeepsTimers(s, s', Some(e));
    MoveKeepsLog(s, s', Some(e));
    MoveKeepsChains(s, s');
    NeutralKeepsHistory(s.chains, s.log, e);
  }

  lemma CloseKeepsInv(s: Loop, callback: bool)
    requires Inv(s) && Enabled(s, Close(callback))
    ensures Inv(Apply(s, Close(callback)))
  {
    hide FdInv, RegInv, TimerInv, LogInv, ChainInv, HistoryInv, DisconnectIsLast;
    var s' := Apply(s, Close(callback));
    DispatchedIsRegistered(s);
    if callback {
      var e := Disconnected(s.ctl.hdl);
      NotDisconnected(s);
      OtherEventKeepsLast(s.log, e);
      MoveKeepsFds(s, s');
      MoveKeepsReg(s, s');
      MoveKeepsTimers(s, s', Some(e));
      MoveKeepsLog(s, Goto(s, Leave(false)), None);
      DisconnectKeepsLog(Goto(s, Leave(false)), s');
      MoveKeepsChains(s, s');
      NeutralKeepsHistory(s.chains, s.log, e);
    } else {
      PlainMoveKeepsInv(s, s');
    }
  }

  lemma DisconnectKeepsLog(s: Loop, s': Loop)
    requires LogInv(s) && s.ctl.Run? && s.ctl.pc == Leave(false) && s.ctl.hdl in s.added
    requires s' == Emit(s, Disconnected(s.ctl.hdl))
    ensures LogInv(s')
  {
    forall t | IsAimed(s', t)
      ensures IsAimed(s, t)
    {
    }
    forall h | IsConnected(s', h)
      ensures IsConnected(s, h)
    {
    }
  }

  lemma LastFailsKeepsInv(s: Loop)
    requires Inv(s) && Enabled(s, LastFails)
    ensures Inv(Apply(s, LastFails))
  {
    FailureKeepsInv(s, true);
  }

  /** The fail callback starts. */
  lemma FailureKeepsInv(s: Loop, disable: bool)
    requires Inv(s) && Connecting(s)
    ensures var c := CurrentKind(s).chain;
            Inv(Goto(Emit(EndChain(s, c), Failed(c, s.ctl.hdl)), InFail(disable)))
  {
    hide FdInv, RegInv, TimerInv, LogInv, ChainInv, HistoryInv, DisconnectIsLast;
    var c := CurrentKind(s).chain;
    var e := Failed(c, s.ctl.hdl);
    var s' := Goto(Emit(EndChain(s, c), e), InFail(disable));
    ActiveIsCurrent(s);
    DispatchedIsRegistered(s);
    OtherEventKeepsLast(s.log, e);
    MoveKeepsFds(s, s');
    MoveKeepsReg(s, s');
    MoveKeepsTimers(s, s', Some(e));
    MoveKeepsLog(s, s', Some(e));
    ConclusionKeepsChains(s, s', c);
    ConclusionKeepsHistory(s.chains, s.log, e);
  }

  lemma ConnectsKeepsInv(s: Loop)
    requires Inv(s) && Enabled(s, Connects)
    ensures Inv(Apply(s, Connects))
  {
    hide FdInv, RegInv, TimerInv, LogInv, ChainInv, HistoryInv, DisconnectIsLast;
    var c := CurrentKind(s).chain;
    var e := Connected(c, s.ctl.hdl);
    var s' := Apply(s, Connects);
    ActiveIsCurrent(s);
    DispatchedIsRegistered(s);
    OtherEventKeepsLast(s.log, e);
    MoveKeepsFds(s, s');
    MoveKeepsReg(s, s');
    MoveKeepsTimers(s, s', Some(e));
    ConnectKeepsLog(s, s', c);
    ConclusionKeepsChains(s, s', c);
    ConclusionKeepsHistory(s.chains, s.log, e);
  }

  lemma ConnectKeepsLog(s: Loop, s': Loop, c: Chain)
    requires LogInv(s) && OnlyMoves(s, s') && s.ctl.Run? && s.ctl.pc == Enter
    requires s'.ctl == s.ctl.(pc := InConnect) && s'.log == s.log + [Connected(c, s.ctl.hdl)]
    requires s.ctl.hdl in s.added && Registered(s, s.ctl.hdl)
    ensures LogInv(s')
  {
    MoveKeepsLog(s, s.(ctl := s'.ctl), None);
    forall t | IsAimed(s', t)
      ensures IsAimed(s, t)
    {
    }
    forall h | IsConnected(s', h)
      ensures IsConnected(s, h)
    {
    }
  }
}
