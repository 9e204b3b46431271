/** The steps that construct, register and remove handles keep the invariant. */
module LoopRegistry {
  import opened LoopModel
  import opened LoopInvariant
  import opened LoopSteps

  // ---------------------------------------------------------------------------------------------------
  // Removal
  // ---------------------------------------------------------------------------------------------------

  /** `fd` leaves the registry, and `ctl` is where the dispatch stands then. */
  function Unregistered(s: Loop, fd: Fd, ctl: Control): Loop {
    s.(interest := s.interest - {fd}, reg := s.reg - {fd}, ctl := ctl)
  }

  /** The dispatched entry is removed when its handler has left for good; no other removal moves the dispatch. */
  predicate RemovalFits(s: Loop, fd: Fd, ctl: Control) {
    if s.ctl.Run? && s.ctl.fd == fd then s.ctl.pc == Leave(false) && ctl == Idle else ctl == s.ctl
  }

  lemma RemovalKeepsFds(s: Loop, fd: Fd, ctl: Control)
    requires FdInv(s)
    ensures FdInv(Unregistered(s, fd, ctl))
  {
  }

  lemma RemovalKeepsReg(s: Loop, fd: Fd, ctl: Control)
    requires RegInv(s) && RemovalFits(s, fd, ctl)
    ensures RegInv(Unregistered(s, fd, ctl))
  {
  }

  lemma RemovalKeepsTimers(s: Loop, fd: Fd, ctl: Control)
    requires TimerInv(s)
    ensures TimerInv(Unregistered(s, fd, ctl))
  {
    var s' := Unregistered(s, fd, ctl);
    forall t | IsAimed(s', t)
      ensures IsAimed(s, t)
    {
    }
    forall h | Registered(s', h)
      ensures Registered(s, h) && s'.reg[s.objs[h].fd.value] == s.reg[s.objs[h].fd.value]
    {
    }
  }

  lemma RemovalFrame(s: Loop, fd: Fd, ctl: Control)
    requires RegInv(s) && RemovalFits(s, fd, ctl)
    ensures var s' := Unregistered(s, fd, ctl);
            && (forall h | Registered(s', h) :: Registered(s, h))
            && (forall h :: IsConnected(s', h) == IsConnected(s, h))
            && (forall t :: IsAimed(s', t) == IsAimed(s, t))
            && (fd in s.reg ==> !Registered(s', s.reg[fd].hdl))
            && (s.ctl.Run? && s'.ctl.Idle? ==> fd in s.reg && s.reg[fd].hdl == s.ctl.hdl && s.ctl.hdl in s.added)
  {
  }

  lemma RemovalKeepsLog(s: Loop, fd: Fd, ctl: Control)
    requires RegInv(s) && LogInv(s) && RemovalFits(s, fd, ctl)
    ensures LogInv(Unregistered(s, fd, ctl))
  {
    RemovalFrame(s, fd, ctl);
    var s' := Unregistered(s, fd, ctl);
    forall h | Removed(s, h)
      ensures Removed(s', h)
    {
    }
  }

  lemma RemovalKeepsChains(s: Loop, fd: Fd, ctl: Control)
    requires RegInv(s) && ChainInv(s) && RemovalFits(s, fd, ctl)
    ensures ChainInv(Unregistered(s, fd, ctl))
  {
    RemovalFrame(s, fd, ctl);
    var s' := Unregistered(s, fd, ctl);
    forall h | Removed(s, h)
      ensures Removed(s', h)
    {
    }
    forall h | Retired(s, h)
      ensures Retired(s', h)
    {
    }
    forall h | Spent(s, h)
      ensures Spent(s', h)
    {
    }
  }

  lemma RemovalKeepsInv(s: Loop, fd: Fd, ctl: Control)
    requires Inv(s) && RemovalFits(s, fd, ctl)
    ensures Inv(Unregistered(s, fd, ctl))
  {
    hide FdInv, RegInv, TimerInv, LogInv, ChainInv, HistoryInv, DisconnectIsLast;
    RemovalKeepsFds(s, fd, ctl);
    RemovalKeepsReg(s, fd, ctl);
    RemovalKeepsTimers(s, fd, ctl);
    RemovalKeepsLog(s, fd, ctl);
    RemovalKeepsChains(s, fd, ctl);
  }

  lemma ReturnKeepsInv(s: Loop)
    requires Inv(s) && Enabled(s, Return)
    ensures Inv(Apply(s, Return))
  {
    hide FdInv, TimerInv, LogInv, ChainInv, HistoryInv, DisconnectIsLast;
    if s.ctl.pc.keep {
      PlainMoveKeepsInv(s, s.(ctl := Idle));
    } else {
      DispatchedIsRegistered(s);
      RemovalKeepsInv(s, s.ctl.fd, Idle);
    }
  }

  /** A closure removes the entry of its own target, or nothing. */
  lemma ClosureRemovesTarget(s: Loop, h: Id)
    requires FdInv(s) && RegInv(s) && h in s.objs
    ensures EpollDelHandle(s, h) ==
            if Registered(s, h) then Unregistered(s, s.objs[h].fd.value, s.ctl) else s
  {
  }

  /** The timer being dispatched and its closure's target are different live handles. */
  lemma TargetIsAnother(s: Loop)
    requires TimerInv(s) && s.ctl.Run? && IsAimed(s, s.ctl.hdl)
    ensures var h := s.objs[s.ctl.hdl].kind.closure.value;
            h in s.objs && h != s.ctl.hdl && h in s.added && Armed(s.ctl.hdl, h) in s.log
  {
  }

  lemma TimeoutKeepsLog(s: Loop, t: Id, h: Id)
    requires LogInv(s) && Armed(t, h) in s.log && Removed(s, h)
    requires forall e | e in s.log && e.Connected? :: e.hdl != h
    ensures LogInv(Emit(s, TimedOut(t, h)))
  {
    var s' := Emit(s, TimedOut(t, h));
    forall x | IsAimed(s', x)
      ensures IsAimed(s, x)
    {
    }
    forall x
      ensures IsConnected(s', x) == IsConnected(s, x) && Removed(s', x) == Removed(s, x)
    {
    }
  }

  /** A handle that a live timer is aimed at and that is not in its connect callback has not connected. */
  lemma AimedNotConnected(s: Loop, t: Id)
    requires LogInv(s) && IsAimed(s, t)
    requires var h := s.objs[t].kind.closure.value; h in s.objs && (s.ctl.Run? ==> s.ctl.hdl != h)
    ensures forall e | e in s.log && e.Connected? :: e.hdl != s.objs[t].kind.closure.value
  {
  }

  lemma FireKeepsInv(s: Loop)
    requires Inv(s) && Enabled(s, Fire)
    ensures Inv(Apply(s, Fire))
  {
    hide FdInv, RegInv, TimerInv, LogInv, ChainInv, HistoryInv, DisconnectIsLast;
    var t := s.ctl.hdl;
    DispatchedIsRegistered(s);
    if IsAimed(s, t) {
      var h := s.objs[t].kind.closure.value;
      TargetIsAnother(s);
      ClosureRemovesTarget(s, h);
      if Registered(s, h) {
        var fd := s.objs[h].fd.value;
        RegisteredApart(s, t, h);
        var s1 := Unregistered(s, fd, s.ctl);
        RemovalKeepsInv(s, fd, s.ctl);
        AimedNotConnected(s, t);
        RemovalFrame(s, fd, s.ctl);
        TimeoutKeepsInv(s1, t, h);
        var s2 := Emit(s1, TimedOut(t, h));
        DispatchedIsRegistered(s2);
        PlainMoveKeepsInv(s2, Goto(s2, Leave(false)));
        assert fd in s.reg && fd !in s1.reg;
        assert Apply(s, Fire) == Goto(s2, Leave(false));
      } else {
        PlainMoveKeepsInv(s, Goto(s, Leave(false)));
      }
    } else {
      PlainMoveKeepsInv(s, Goto(s, Leave(false)));
    }
  }

  /** Different registered handles have different keys. */
  lemma RegisteredApart(s: Loop, t: Id, h: Id)
    requires Registered(s, t) && Registered(s, h) && t != h
    ensures s.objs[t].fd != s.objs[h].fd
  {
  }

  lemma TimeoutKeepsInv(s: Loop, t: Id, h: Id)
    requires Inv(s) && Armed(t, h) in s.log && Removed(s, h)
    requires forall e | e in s.log && e.Connected? :: e.hdl != h
    ensures Inv(Emit(s, TimedOut(t, h)))
  {
    hide FdInv, RegInv, TimerInv, LogInv, ChainInv, HistoryInv, DisconnectIsLast;
    var e := TimedOut(t, h);
    var s' := Emit(s, e);
    if s.ctl.Run? {
      DispatchedIsRegistered(s);
    }
    MoveKeepsFds(s, s');
    MoveKeepsReg(s, s');
    MoveKeepsTimers(s, s', Some(e));
    TimeoutKeepsLog(s, t, h);
    MoveKeepsChains(s, s');
    NeutralKeepsHistory(s.chains, s.log, e);
    OtherEventKeepsLast(s.log, e);
  }
}
