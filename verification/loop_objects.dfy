/** The steps that create, disable, register, remove and destroy handles keep the invariant. */
module LoopObjects {
  import opened LoopModel
  import opened LoopInvariant
  import opened LoopSteps

  // ---------------------------------------------------------------------------------------------------
  // Disabling a timer and marking a client as connected
  // ---------------------------------------------------------------------------------------------------

  /** The same handles with the same descriptors. */
  predicate SameOwners(s: Loop, s': Loop) {
    && s'.objs.Keys == s.objs.Keys
    && forall id | id in s.objs :: s'.objs[id].fd == s.objs[id].fd
  }

  lemma SameOwnersSameRegistered(s: Loop, s': Loop)
    requires SameOwners(s, s') && s'.reg == s.reg
    ensures forall id :: Registered(s', id) == Registered(s, id)
  {
  }

  lemma KindsKeepFds(s: Loop, s': Loop)
    requires FdInv(s) && SameOwners(s, s') && s' == s.(objs := s'.objs, ctl := s'.ctl)
    requires s'.objs[EPOLL].kind == Plain
    ensures FdInv(s')
  {
    assert Owners(s'.objs) == Owners(s.objs);
    forall fd | fd in s'.open && fd !in s'.leaked
      ensures exists id :: id in s'.objs && s'.objs[id].fd == Some(fd)
    {
      var id :| id in s.objs && s.objs[id].fd == Some(fd);
      assert s'.objs[id].fd == Some(fd);
    }
  }

  lemma KindsKeepReg(s: Loop, s': Loop)
    requires RegInv(s) && SameOwners(s, s') && s' == s.(objs := s'.objs, ctl := s'.ctl)
    requires s'.ctl.Run? ==> s'.ctl.fd in s.reg && s.reg[s'.ctl.fd] == Entry(s'.ctl.hdl, s'.ctl.timer)
    ensures RegInv(s')
  {
  }

  lemma DisableKeepsTimers(s: Loop, timer: Option<Id>)
    requires TimerInv(s)
    ensures TimerInv(Disable(s, timer))
  {
    var s' := Disable(s, timer);
    SameOwnersSameRegistered(s, s');
    forall t | IsAimed(s', t)
      ensures IsAimed(s, t) && s'.objs[t] == s.objs[t]
    {
    }
  }

  lemma DisableKeepsLog(s: Loop, timer: Option<Id>)
    requires LogInv(s)
    ensures LogInv(Disable(s, timer))
  {
    var s' := Disable(s, timer);
    SameOwnersSameRegistered(s, s');
    forall t | IsAimed(s', t)
      ensures IsAimed(s, t) && s'.objs[t] == s.objs[t]
    {
    }
    forall h
      ensures IsConnected(s', h) == IsConnected(s, h)
      ensures Removed(s', h) == Removed(s, h)
    {
    }
  }

  lemma DisableKeepsChains(s: Loop, timer: Option<Id>)
    requires ChainInv(s)
    ensures ChainInv(Disable(s, timer))
  {
    var s' := Disable(s, timer);
    SameOwnersSameRegistered(s, s');
    hide Registered, SameOwners;
    forall id | id in s'.objs && s'.objs[id].kind.Client?
      ensures s.objs[id] == s'.objs[id]
    {
    }
    forall id
      ensures Retired(s', id) == Retired(s, id)
      ensures Spent(s', id) == Spent(s, id)
    {
      assert Removed(s', id) == Removed(s, id);
      assert IsConnected(s', id) == IsConnected(s, id);
    }
  }

  lemma DisableKeepsInv(s: Loop, timer: Option<Id>)
    requires Inv(s)
    ensures Inv(Disable(s, timer))
  {
    hide FdInv, RegInv, TimerInv, LogInv, ChainInv, HistoryInv, DisconnectIsLast;
    var s' := Disable(s, timer);
    EpollIsPlain(s);
    KindsKeepFds(s, s');
    if s.ctl.Run? {
      DispatchedIsRegistered(s);
    }
    KindsKeepReg(s, s');
    DisableKeepsTimers(s, timer);
    DisableKeepsLog(s, timer);
    DisableKeepsChains(s, timer);
  }

  lemma EpollIsPlain(s: Loop)
    requires FdInv(s)
    ensures EPOLL in s.objs && s.objs[EPOLL].kind == Plain
  {
  }

  lemma FailReturnsKeepsInv(s: Loop)
    requires Inv(s) && Enabled(s, FailReturns)
    ensures Inv(Apply(s, FailReturns))
  {
    hide FdInv, RegInv, TimerInv, LogInv, ChainInv, HistoryInv, DisconnectIsLast;
    var s1 := if s.ctl.pc.disable then Disable(s, s.ctl.timer) else s;
    DisableKeepsInv(s, s.ctl.timer);
    DispatchedIsRegistered(s1);
    PlainMoveKeepsInv(s1, Goto(s1, Closing));
  }

  lemma GetSockOptFailsKeepsInv(s: Loop)
    requires Inv(s) && Enabled(s, GetSockOptFails)
    ensures Inv(Apply(s, GetSockOptFails))
  {
    hide FdInv, RegInv, TimerInv, LogInv, ChainInv, HistoryInv, DisconnectIsLast;
    var s1 := Disable(s, s.ctl.timer);
    DisableKeepsInv(s, s.ctl.timer);
    assert s1.objs[s.ctl.hdl] == s.objs[s.ctl.hdl];
    FailureKeepsInv(s1, false);
  }

  function MarkConnected(s: Loop, h: Id): Loop
    requires h in s.objs && s.objs[h].kind.Client? && s.ctl.Run?
  {
    Goto(s.(objs := s.objs[h := s.objs[h].(kind := s.objs[h].kind.(connected := true))]), Open)
  }

  lemma MarkKeepsTimers(s: Loop, h: Id)
    requires TimerInv(s) && h in s.objs && s.objs[h].kind.Client? && s.ctl.Run?
    ensures TimerInv(MarkConnected(s, h))
  {
    var s' := MarkConnected(s, h);
    SameOwnersSameRegistered(s, s');
    forall t | IsAimed(s', t)
      ensures IsAimed(s, t) && s'.objs[t] == s.objs[t]
    {
    }
  }

  lemma MarkKeepsLog(s: Loop, h: Id)
    requires LogInv(s) && h in s.objs && s.objs[h].kind.Client? && h in s.added
    requires s.ctl.Run? && s.ctl.hdl == h && s.ctl.pc == InConnect
    requires forall t | IsAimed(s, t) :: s.objs[t].kind.closure != Some(h)
    ensures LogInv(MarkConnected(s, h))
  {
    var s' := MarkConnected(s, h);
    SameOwnersSameRegistered(s, s');
    forall t | IsAimed(s', t)
      ensures IsAimed(s, t) && s'.objs[t] == s.objs[t]
    {
    }
    forall x
      ensures IsConnected(s', x) == (IsConnected(s, x) || x == h)
      ensures Removed(s', x) == Removed(s, x)
    {
    }
  }

  lemma MarkKeepsChains(s: Loop, h: Id)
    requires ChainInv(s) && h in s.objs && s.objs[h].kind.Client? && Registered(s, h)
    requires s.ctl.Run? && s.ctl.hdl == h && s.ctl.pc == InConnect
    ensures ChainInv(MarkConnected(s, h))
  {
    var s' := MarkConnected(s, h);
    SameOwnersSameRegistered(s, s');
    assert !Retired(s, h);
    forall id
      ensures Retired(s', id) == Retired(s, id)
      ensures Spent(s, id) ==> Spent(s', id)
    {
      assert Removed(s', id) == Removed(s, id);
      assert IsConnected(s', id) == (IsConnected(s, id) || id == h);
    }
  }

  /** Disabling the timer named by the dispatched entry leaves no timer aimed at the dispatched handle. */
  lemma DisabledTimerAimsNoMore(s: Loop)
    requires Inv(s) && s.ctl.Run?
    ensures var s' := Disable(s, s.ctl.timer);
            forall t | IsAimed(s', t) :: s'.objs[t].kind.closure != Some(s.ctl.hdl)
  {
    DispatchedIsRegistered(s);
    var s' := Disable(s, s.ctl.timer);
    forall t | IsAimed(s', t)
      ensures s'.objs[t].kind.closure != Some(s.ctl.hdl)
    {
      assert IsAimed(s, t) && s'.objs[t] == s.objs[t];
    }
  }

  lemma ConnectReturnsKeepsInv(s: Loop)
    requires Inv(s) && Enabled(s, ConnectReturns)
    ensures Inv(Apply(s, ConnectReturns))
  {
    hide FdInv, RegInv, TimerInv, LogInv, ChainInv, HistoryInv, DisconnectIsLast;
    var h := s.ctl.hdl;
    var s1 := Disable(s, s.ctl.timer);
    DisableKeepsInv(s, s.ctl.timer);
    DispatchedIsRegistered(s1);
    DisabledTimerAimsNoMore(s);
    EpollIsPlain(s1);
    var s' := MarkConnected(s1, h);
    assert s' == Apply(s, ConnectReturns);
    KindsKeepFds(s1, s');
    KindsKeepReg(s1, s');
    MarkKeepsTimers(s1, h);
    MarkKeepsLog(s1, h);
    MarkKeepsChains(s1, h);
  }

  // ---------------------------------------------------------------------------------------------------
  // References of the program
  // ---------------------------------------------------------------------------------------------------

  lemma ExtKeepsInv(s: Loop, ext: set<Id>)
    requires Inv(s) && EPOLL in ext && ext <= s.objs.Keys
    ensures Inv(s.(ext := ext))
  {
    hide FdInv, RegInv, TimerInv, LogInv, ChainInv, HistoryInv, DisconnectIsLast;
    var s' := s.(ext := ext);
    ExtKeepsFds(s, ext);
    ExtKeepsReg(s, ext);
    ExtKeepsTimers(s, ext);
    ExtKeepsLog(s, ext);
    ExtKeepsChains(s, ext);
  }

  lemma ExtKeepsFds(s: Loop, ext: set<Id>)
    requires FdInv(s) && EPOLL in ext && ext <= s.objs.Keys
    ensures FdInv(s.(ext := ext))
  {
  }

  lemma ExtKeepsReg(s: Loop, ext: set<Id>)
    requires RegInv(s)
    ensures RegInv(s.(ext := ext))
  {
  }

  lemma ExtKeepsTimers(s: Loop, ext: set<Id>)
    requires TimerInv(s)
    ensures TimerInv(s.(ext := ext))
  {
    forall t | IsAimed(s.(ext := ext), t)
      ensures IsAimed(s, t)
    {
    }
  }

  lemma ExtKeepsLog(s: Loop, ext: set<Id>)
    requires LogInv(s)
    ensures LogInv(s.(ext := ext))
  {
    var s' := s.(ext := ext);
    forall t | IsAimed(s', t)
      ensures IsAimed(s, t)
    {
    }
    forall h
      ensures IsConnected(s', h) == IsConnected(s, h) && Removed(s', h) == Removed(s, h)
    {
    }
  }

  lemma ExtKeepsChains(s: Loop, ext: set<Id>)
    requires ChainInv(s)
    ensures ChainInv(s.(ext := ext))
  {
    var s' := s.(ext := ext);
    forall id
      ensures Retired(s', id) == Retired(s, id) && Spent(s', id) == Spent(s, id)
    {
      assert Removed(s', id) == Removed(s, id) && IsConnected(s', id) == IsConnected(s, id);
    }
  }

  // ---------------------------------------------------------------------------------------------------
  // Destruction
  // ---------------------------------------------------------------------------------------------------

  function Destroyed(s: Loop, id: Id): Loop
    requires id in s.objs
  {
    var fd := s.objs[id].fd;
    s.(objs := s.objs - {id},
       open := s.open - (if fd.Some? then {fd.value} else {}),
       closes := s.closes + if fd.Some? then 1 else 0)
  }

  lemma DestroyKeepsFds(s: Loop, id: Id)
    requires FdInv(s) && id in s.objs && id !in s.ext
    ensures FdInv(Destroyed(s, id))
  {
    var s' := Destroyed(s, id);
    if s.objs[id].fd.Some? {
      assert Owners(s'.objs) == Owners(s.objs) - {id};
    } else {
      assert Owners(s'.objs) == Owners(s.objs);
    }
    forall fd | fd in s'.open && fd !in s'.leaked
      ensures exists i :: i in s'.objs && s'.objs[i].fd == Some(fd)
    {
      var i :| i in s.objs && s.objs[i].fd == Some(fd);
      assert i in s'.objs && s'.objs[i] == s.objs[i];
    }
  }

  lemma DestroyKeepsReg(s: Loop, id: Id)
    requires RegInv(s) && id in s.objs && !Referenced(s, id)
    ensures RegInv(Destroyed(s, id))
  {
  }

  lemma DestroyKeepsRegistered(s: Loop, id: Id)
    requires id in s.objs && !Referenced(s, id)
    ensures forall x :: Registered(Destroyed(s, id), x) == Registered(s, x)
    ensures forall t :: IsAimed(Destroyed(s, id), t) == (IsAimed(s, t) && t != id)
    ensures forall t | IsAimed(s, t) :: s.objs[t].kind.closure.value != id
  {
  }

  lemma DestroyKeepsTimers(s: Loop, id: Id)
    requires TimerInv(s) && id in s.objs && !Referenced(s, id)
    ensures TimerInv(Destroyed(s, id))
  {
    DestroyKeepsRegistered(s, id);
  }

  lemma DestroyKeepsLog(s: Loop, id: Id)
    requires LogInv(s) && id in s.objs && !Referenced(s, id)
    ensures LogInv(Destroyed(s, id))
  {
    var s' := Destroyed(s, id);
    DestroyKeepsRegistered(s, id);
    forall h
      ensures IsConnected(s', h) == (IsConnected(s, h) && h != id)
      ensures Removed(s', h) == Removed(s, h)
    {
    }
  }

  lemma DestroyKeepsChains(s: Loop, id: Id)
    requires ChainInv(s) && id in s.objs && !Referenced(s, id)
    ensures ChainInv(Destroyed(s, id))
  {
    var s' := Destroyed(s, id);
    DestroyKeepsRegistered(s, id);
    forall x | x != id
      ensures Retired(s', x) == Retired(s, x) && Spent(s', x) == Spent(s, x)
    {
      assert Removed(s', x) == Removed(s, x) && IsConnected(s', x) == IsConnected(s, x);
    }
  }

  lemma DestroyKeepsInv(s: Loop, id: Id)
    requires Inv(s) && Enabled(s, Destroy(id))
    ensures Inv(Apply(s, Destroy(id)))
  {
    hide FdInv, RegInv, TimerInv, LogInv, ChainInv, HistoryInv, DisconnectIsLast;
    assert Apply(s, Destroy(id)) == Destroyed(s, id);
    DestroyKeepsFds(s, id);
    DestroyKeepsReg(s, id);
    DestroyKeepsTimers(s, id);
    DestroyKeepsLog(s, id);
    DestroyKeepsChains(s, id);
  }
}
