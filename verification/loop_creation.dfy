/** The steps that construct handles and give them to `add` keep the invariant. */
module LoopCreation {
  import opened LoopModel
  import opened LoopInvariant
  import opened LoopSteps

  // ---------------------------------------------------------------------------------------------------
  // Constructors
  // ---------------------------------------------------------------------------------------------------

  /** `s'` is `s` after a constructor ran, with whatever else the step recorded about it. */
  predicate Born(s: Loop, s': Loop, kind: Kind, os: Os) {
    && OsCan(s, os)
    && s' == Create(s, kind, os).(ext := s'.ext, added := s'.added, log := s'.log, chains := s'.chains,
                                  nextChain := s'.nextChain)
    && s.added <= s'.added
  }

  lemma OwnersGrow(objs: map<Id, Handle>, id: Id, h: Handle)
    requires id !in objs
    ensures |Owners(objs[id := h])| == |Owners(objs)| + if h.fd.Some? then 1 else 0
  {
    assert Owners(objs[id := h]) == Owners(objs) + if h.fd.Some? then {id} else {};
  }

  lemma BirthKeepsFds(s: Loop, s': Loop, kind: Kind, os: Os)
    requires FdInv(s) && Born(s, s', kind, os)
    requires s.ext <= s'.ext <= s.ext + {s.next}
    requires forall id | id in s'.added :: id <= s.next
    ensures FdInv(s')
  {
    hide NoOrphans, Owners;
    BirthKeepsOwned(s, s', kind, os);
    OwnersGrow(s.objs, s.next, s'.objs[s.next]);
    assert forall id | id in s.objs :: s'.objs[id] == s.objs[id];
  }

  lemma BirthKeepsOwned(s: Loop, s': Loop, kind: Kind, os: Os)
    requires FdInv(s) && Born(s, s', kind, os)
    ensures NoOrphans(s')
  {
    forall fd | fd in s'.open && fd !in s'.leaked
      ensures exists id :: id in s'.objs && s'.objs[id].fd == Some(fd)
    {
      if !os.NoFd? && fd == os.fd {
        assert s'.objs[s.next].fd == Some(fd);
      } else {
        var id :| id in s.objs && s.objs[id].fd == Some(fd);
        assert s'.objs[id] == s.objs[id];
      }
    }
  }

  lemma BirthKeepsReg(s: Loop, s': Loop, kind: Kind, os: Os)
    requires FdInv(s) && RegInv(s) && Born(s, s', kind, os)
    ensures RegInv(s')
  {
  }

  /** Nothing that was there before is changed by a birth, and the newborn is not registered. */
  lemma BirthFrame(s: Loop, s': Loop, kind: Kind, os: Os)
    requires FdInv(s) && RegInv(s) && Born(s, s', kind, os)
    ensures s.next !in s.objs && s.next !in s.added && s.next in s'.objs && !Registered(s', s.next)
    ensures forall id :: Registered(s', id) == Registered(s, id)
    ensures forall id | id != s.next :: (id in s'.objs) == (id in s.objs)
    ensures forall id | id in s.objs :: s'.objs[id] == s.objs[id]
    ensures forall id | id != s.next :: IsConnected(s', id) == IsConnected(s, id)
    ensures forall t | t != s.next :: IsAimed(s', t) == IsAimed(s, t)
  {
  }

  lemma BirthKeepsTimers(s: Loop, s': Loop, kind: Kind, os: Os, e: Option<Event>)
    requires FdInv(s) && RegInv(s) && TimerInv(s) && Born(s, s', kind, os) && Logs(s, s', e)
    requires if kind.Timer? && kind.closure.Some? then
               var h := kind.closure.value;
               e == Some(Armed(s.next, h)) && h in s.objs && h in s'.added && !Registered(s, h)
             else e.Some? ==> !e.value.Armed?
    ensures TimerInv(s')
  {
    hide RegInv, Registered;
    AddedAreOld(s);
    BirthFrame(s, s', kind, os);
  }

  lemma BirthKeepsLog(s: Loop, s': Loop, kind: Kind, os: Os, e: Option<Event>)
    requires FdInv(s) && RegInv(s) && LogInv(s) && Born(s, s', kind, os) && Logs(s, s', e)
    requires e.Some? ==> e.value.Armed? || e.value.Attempt?
    requires !(kind.Client? && kind.connected)
    requires kind.Timer? && kind.closure.Some? ==> kind.closure.value in s.objs && !IsConnected(s, kind.closure.value)
    ensures LogInv(s')
  {
    hide FdInv, RegInv, Registered;
    AddedAreOld(s);
    BirthFrame(s, s', kind, os);
    forall h | Removed(s, h)
      ensures Removed(s', h)
    {
    }
  }

  lemma BirthKeepsSpent(s: Loop, s': Loop, kind: Kind, os: Os)
    requires FdInv(s) && RegInv(s) && Born(s, s', kind, os)
    ensures forall id | Retired(s, id) :: Retired(s', id)
    ensures forall id | id in s.objs && Spent(s, id) :: Spent(s', id)
  {
    BirthFrame(s, s', kind, os);
    forall id | Removed(s, id)
      ensures Removed(s', id)
    {
    }
  }

  lemma BirthKeepsChains(s: Loop, s': Loop, kind: Kind, os: Os)
    requires FdInv(s) && RegInv(s) && ChainInv(s) && Born(s, s', kind, os)
    requires !kind.Client? && s'.chains == s.chains && s'.nextChain == s.nextChain
    ensures ChainInv(s')
  {
    BirthFrame(s, s', kind, os);
    BirthKeepsSpent(s, s', kind, os);
    forall c | c in s.chains && s.chains[c].cur in s'.objs
      ensures s.chains[c].cur in s.objs
    {
    }
  }

  lemma AttemptKeepsChains(s: Loop, s': Loop, c: Chain, a: Attempts, os: Os)
    requires 1 <= a.tried <= a.len
    requires FdInv(s) && RegInv(s) && ChainInv(s) && Born(s, s', Client(c, a.tried - 1, false), os)
    requires a.cur == s.next && !a.done && s'.chains == s.chains[c := a]
    requires s.nextChain <= s'.nextChain && c < s'.nextChain
    requires if c in s.chains
             then a.tried == s.chains[c].tried + 1 && Retired(s, s.chains[c].cur) && !IsConnected(s, s.chains[c].cur)
             else s.nextChain <= c
    ensures ChainInv(s')
  {
    BirthFrame(s, s', Client(c, a.tried - 1, false), os);
    BirthKeepsSpent(s, s', Client(c, a.tried - 1, false), os);
    forall d | d in s.chains && s.chains[d].cur in s'.objs
      ensures s.chains[d].cur in s.objs
    {
    }
  }

  lemma NewPlainKeepsInv(s: Loop, os: Os)
    requires Inv(s) && Enabled(s, NewPlain(os))
    ensures Inv(Apply(s, NewPlain(os)))
  {
    hide FdInv, RegInv, TimerInv, LogInv, ChainInv, HistoryInv, DisconnectIsLast;
    var s' := Apply(s, NewPlain(os));
    AddedAreOld(s);
    BirthKeepsFds(s, s', Plain, os);
    BirthKeepsReg(s, s', Plain, os);
    BirthKeepsTimers(s, s', Plain, os, None);
    BirthKeepsLog(s, s', Plain, os, None);
    BirthKeepsChains(s, s', Plain, os);
    CtlSurvivesBirth(s, s', Plain, os);
  }

  lemma AddedAreOld(s: Loop)
    requires FdInv(s)
    ensures forall id | id in s.added :: id < s.next
    ensures EPOLL in s.objs && EPOLL in s.ext && EPOLL in s.added && EPOLL < s.next
    ensures forall id | id in s.objs :: id < s.next
    ensures s.next !in s.objs && s.next !in s.added
  {
  }

  lemma CtlSurvivesBirth(s: Loop, s': Loop, kind: Kind, os: Os)
    requires FdInv(s) && RegInv(s) && CtlInv(s) && Born(s, s', kind, os)
    ensures CtlInv(s')
  {
    BirthFrame(s, s', kind, os);
  }

  /** A new attempt: the first of a new chain, or the one that follows a last attempt that is retired. */
  lemma NewAttemptKeepsInv(s: Loop, s': Loop, c: Chain, len: nat, pos: nat, os: Os)
    requires Inv(s) && OsCan(s, os) && pos < len
    requires s' == NewAttempt(s, c, len, pos, os).(ext := s'.ext, nextChain := s'.nextChain)
    requires s.ext <= s'.ext <= s.ext + {s.next} && s.nextChain <= s'.nextChain && c < s'.nextChain
    requires if c in s.chains
             then pos == s.chains[c].tried && !s.chains[c].done
                  && Retired(s, s.chains[c].cur) && !IsConnected(s, s.chains[c].cur)
             else pos == 0 && s.nextChain <= c
    ensures Inv(s')
  {
    hide FdInv, RegInv, TimerInv, LogInv, ChainInv, HistoryInv, DisconnectIsLast;
    var kind, e, a := Client(c, pos, false), Attempt(c, pos), Attempts(len, pos + 1, s.next, false);
    AddedAreOld(s);
    BirthKeepsFds(s, s', kind, os);
    BirthKeepsReg(s, s', kind, os);
    BirthKeepsTimers(s, s', kind, os, Some(e));
    BirthKeepsLog(s, s', kind, os, Some(e));
    AttemptKeepsChains(s, s', c, a, os);
    CtlSurvivesBirth(s, s', kind, os);
    AttemptKeepsHistory(s.chains, s.log, c, a);
    OtherEventKeepsLast(s.log, e);
  }

  lemma NewChainKeepsInv(s: Loop, len: nat, os: Os)
    requires Inv(s) && Enabled(s, NewChain(len, os))
    ensures Inv(Apply(s, NewChain(len, os)))
  {
    assert s.nextChain !in s.chains;
    NewAttemptKeepsInv(s, Apply(s, NewChain(len, os)), s.nextChain, len, 0, os);
  }

  // ---------------------------------------------------------------------------------------------------
  // Adding a handle
  // ---------------------------------------------------------------------------------------------------

  /** `id` may still be given to `add`: it is no handle that was, and no attempt that is over. */
  ghost predicate Fresh(s: Loop, id: Id) {
    && id in s.objs && id != EPOLL
    && !Registered(s, id) && !IsConnected(s, id)
    && (forall e | e in s.log && (e.Connected? || e.TimedOut? || e.Disconnected?) :: e.hdl != id)
    && (s.objs[id].kind.Client? ==>
          var k := s.objs[id].kind; k.chain in s.chains && s.chains[k.chain].cur == id && !s.chains[k.chain].done)
  }

  lemma NotAddedIsFresh(s: Loop, id: Id)
    requires Inv(s) && id in s.objs && id !in s.added
    ensures Fresh(s, id)
  {
    if s.ctl.Run? {
      DispatchedIsRegistered(s);
    }
    AddedAreOld(s);
  }

  /** The handle is marked as added; it is not registered yet. */
  lemma MarkAddedKeepsInv(s: Loop, id: Id)
    requires Inv(s) && id in s.objs && id !in s.added
    ensures Inv(s.(added := s.added + {id})) && Fresh(s.(added := s.added + {id}), id)
  {
    hide FdInv, RegInv, TimerInv, LogInv, ChainInv, HistoryInv, DisconnectIsLast;
    NotAddedIsFresh(s, id);
    MarkAddedKeepsFds(s, id);
    MarkAddedKeepsReg(s, id);
    MarkAddedKeepsTimers(s, id);
    MarkAddedKeepsLog(s, id);
    MarkAddedKeepsChains(s, id);
  }

  lemma MarkAddedKeepsFds(s: Loop, id: Id)
    requires FdInv(s) && id in s.objs
    ensures FdInv(s.(added := s.added + {id}))
  {
  }

  lemma MarkAddedKeepsReg(s: Loop, id: Id)
    requires RegInv(s)
    ensures RegInv(s.(added := s.added + {id}))
  {
  }

  lemma MarkAddedKeepsTimers(s: Loop, id: Id)
    requires TimerInv(s)
    ensures TimerInv(s.(added := s.added + {id}))
  {
    forall t | IsAimed(s.(added := s.added + {id}), t)
      ensures IsAimed(s, t)
    {
    }
  }

  lemma MarkAddedKeepsLog(s: Loop, id: Id)
    requires LogInv(s)
    ensures LogInv(s.(added := s.added + {id}))
  {
    var s' := s.(added := s.added + {id});
    forall t | IsAimed(s', t)
      ensures IsAimed(s, t)
    {
    }
    forall h
      ensures IsConnected(s', h) == IsConnected(s, h)
      ensures Removed(s, h) ==> Removed(s', h)
    {
    }
  }

  lemma MarkAddedKeepsChains(s: Loop, id: Id)
    requires ChainInv(s)
    ensures ChainInv(s.(added := s.added + {id}))
  {
    var s' := s.(added := s.added + {id});
    forall h
      ensures Retired(s, h) ==> Retired(s', h)
      ensures Spent(s, h) ==> Spent(s', h)
    {
      assert Removed(s, h) ==> Removed(s', h);
      assert IsConnected(s', h) == IsConnected(s, h);
    }
  }

  // ---------------------------------------------------------------------------------------------------
  // epoll_add
  // ---------------------------------------------------------------------------------------------------

  lemma RegistrationFrame(s: Loop, id: Id, timer: Option<Id>, willing: bool)
    requires FdInv(s) && RegInv(s) && id in s.objs && !Registered(s, id)
    ensures var s' := EpollAdd(s, id, timer, willing);
            && s' == s.(interest := s'.interest, reg := s'.reg)
            && (forall h | h != id :: Registered(s', h) == Registered(s, h))
            && (forall fd | fd in s.reg :: fd in s'.reg && s'.reg[fd] == s.reg[fd])
            && (forall fd | fd in s'.reg && fd !in s.reg :: s.objs[id].fd == Some(fd) && s'.reg[fd] == Entry(id, timer))
            && s'.interest == s'.reg.Keys
            && (forall h :: IsConnected(s', h) == IsConnected(s, h))
            && (forall t :: IsAimed(s', t) == IsAimed(s, t))
            && (Registered(s', id) <==> willing && s.objs[id].fd.Some?)
  {
  }

  lemma RegistrationKeepsTimers(s: Loop, id: Id, timer: Option<Id>, willing: bool)
    requires FdInv(s) && RegInv(s) && TimerInv(s) && Fresh(s, id)
    requires forall t | IsAimed(s, t) && s.objs[t].kind.closure == Some(id) :: timer == Some(t)
    ensures TimerInv(EpollAdd(s, id, timer, willing))
  {
    var s' := EpollAdd(s, id, timer, willing);
    RegistrationFrame(s, id, timer, willing);
    forall t | IsAimed(s', t)
      ensures var h := s'.objs[t].kind.closure.value;
              Registered(s', h) ==> s'.reg[s'.objs[h].fd.value].timer == Some(t)
    {
      assert IsAimed(s, t);
    }
  }

  lemma RegistrationKeepsLog(s: Loop, id: Id, timer: Option<Id>, willing: bool)
    requires FdInv(s) && RegInv(s) && LogInv(s) && Fresh(s, id)
    ensures LogInv(EpollAdd(s, id, timer, willing))
  {
    var s' := EpollAdd(s, id, timer, willing);
    RegistrationFrame(s, id, timer, willing);
    forall h | h != id
      ensures Removed(s', h) == Removed(s, h)
    {
    }
  }

  lemma RegistrationKeepsChains(s: Loop, id: Id, timer: Option<Id>, willing: bool)
    requires FdInv(s) && RegInv(s) && ChainInv(s) && Fresh(s, id)
    ensures ChainInv(EpollAdd(s, id, timer, willing))
  {
    var s' := EpollAdd(s, id, timer, willing);
    RegistrationFrame(s, id, timer, willing);
    forall h | h != id
      ensures Retired(s', h) == Retired(s, h) && Spent(s', h) == Spent(s, h)
    {
      assert Removed(s', h) == Removed(s, h);
    }
    forall c | c in s.chains && s.chains[c].done && s.chains[c].cur in s.objs
      ensures s.chains[c].cur != id
    {
      ClientOfItsChain(s, id, c);
    }
  }

  /** The last handle of a finished chain is not one that may still be added. */
  lemma ClientOfItsChain(s: Loop, id: Id, c: Chain)
    requires FdInv(s) && ChainInv(s) && Fresh(s, id) && c in s.chains && s.chains[c].done
    ensures s.chains[c].cur != id
  {
  }

  lemma RegistrationKeepsInv(s: Loop, id: Id, timer: Option<Id>, willing: bool)
    requires Inv(s) && Fresh(s, id) && id in s.added
    requires timer.Some? ==> timer.value < s.next
    requires forall t | IsAimed(s, t) && s.objs[t].kind.closure == Some(id) :: timer == Some(t)
    ensures Inv(EpollAdd(s, id, timer, willing))
  {
    hide FdInv, TimerInv, LogInv, ChainInv, HistoryInv, DisconnectIsLast;
    var s' := EpollAdd(s, id, timer, willing);
    RegistrationFrame(s, id, timer, willing);
    RegistrationKeepsFds(s, s');
    RegistrationKeepsTimers(s, id, timer, willing);
    RegistrationKeepsLog(s, id, timer, willing);
    RegistrationKeepsChains(s, id, timer, willing);
  }

  lemma RegistrationKeepsFds(s: Loop, s': Loop)
    requires FdInv(s) && s' == s.(interest := s'.interest, reg := s'.reg)
    ensures FdInv(s')
  {
  }

  // ---------------------------------------------------------------------------------------------------
  // add
  // ---------------------------------------------------------------------------------------------------

  /** The timers aimed at `id` are among `ts`. */
  ghost predicate AimedOnlyBy(s: Loop, id: Id, ts: set<Id>) {
    forall t | IsAimed(s, t) && s.objs[t].kind.closure == Some(id) :: t in ts
  }

  lemma NotAddedNotAimed(s: Loop, id: Id)
    requires TimerInv(s) && id !in s.added
    ensures AimedOnlyBy(s, id, {})
  {
  }

  /** The timer of `add` is constructed. */
  lemma ArmKeepsInv(s: Loop, s': Loop, id: Id, os: Os)
    requires Inv(s) && Fresh(s, id) && id in s.added && OsCan(s, os) && AimedOnlyBy(s, id, {})
    requires s' == Create(s.(added := s.added + {s.next}, log := s.log + [Armed(s.next, id)]), Timer(Some(id)), os)
    ensures Inv(s')
    ensures Fresh(s', id) && AimedOnlyBy(s', id, {s.next})
    ensures Fresh(s', s.next) && AimedOnlyBy(s', s.next, {})
  {
    hide FdInv, RegInv, TimerInv, LogInv, ChainInv, HistoryInv, DisconnectIsLast;
    var kind, e := Timer(Some(id)), Armed(s.next, id);
    AddedAreOld(s);
    BirthKeepsFds(s, s', kind, os);
    BirthKeepsReg(s, s', kind, os);
    BirthKeepsTimers(s, s', kind, os, Some(e));
    BirthKeepsLog(s, s', kind, os, Some(e));
    BirthKeepsChains(s, s', kind, os);
    CtlSurvivesBirth(s, s', kind, os);
    NeutralKeepsHistory(s.chains, s.log, e);
    OtherEventKeepsLast(s.log, e);
    BirthFrame(s, s', kind, os);
    LoggedWereAdded(s);
    NotAddedNotAimed(s, s.next);
  }

  /** Everything the log says about removal and connection is about handles that were added. */
  lemma LoggedWereAdded(s: Loop)
    requires LogInv(s)
    ensures forall e | e in s.log && (e.Connected? || e.TimedOut? || e.Disconnected?) :: e.hdl in s.added
  {
  }

  lemma AddKeepsInv(s: Loop, id: Id, timed: bool, a: Answers)
    requires Inv(s) && id in s.objs && id !in s.added && OsCan(s, a.os) && EPOLL in s.objs
    ensures Inv(Add(s, id, timed, a))
  {
    hide FdInv, RegInv, TimerInv, LogInv, ChainInv, HistoryInv, DisconnectIsLast, Fresh, IsAimed;
    var s1 := s.(added := s.added + {id});
    AddedAreOld(s);
    MarkAddedKeepsInv(s, id);
    NotAddedNotAimed(s, id);
    MarkedNotAimed(s, id);
    if timed && s.objs[EPOLL].fd.Some? {
      var t, s2 := s.next, Arm(s, id, a.os);
      assert s.added + {id, t} == s1.added + {t};
      ArmKeepsInv(s1, s2, id, a.os);
      FreshExists(s2, t);
      var s3 := EpollAdd(s2, t, None, a.timerWilling);
      TimerAimedByNone(s2, t);
      RegistrationKeepsInv(s2, t, None, a.timerWilling);
      RegistrationKeepsFresh(s2, t, None, a.timerWilling, id, {t});
      AimedByOne(s3, id, t);
      RegistrationKeepsInv(s3, id, Some(t), a.willing);
    } else if s.objs[EPOLL].fd.Some? {
      TimerAimedByNone(s1, id);
      RegistrationKeepsInv(s1, id, None, a.willing);
    }
  }

  lemma MarkedNotAimed(s: Loop, id: Id)
    requires AimedOnlyBy(s, id, {})
    ensures AimedOnlyBy(s.(added := s.added + {id}), id, {})
  {
    forall t | IsAimed(s.(added := s.added + {id}), t)
      ensures IsAimed(s, t)
    {
    }
  }

  lemma FreshExists(s: Loop, id: Id)
    requires Fresh(s, id)
    ensures id in s.objs && id != EPOLL && !Registered(s, id)
  {
  }

  lemma TimerAimedByNone(s: Loop, id: Id)
    requires AimedOnlyBy(s, id, {})
    ensures forall t | IsAimed(s, t) && s.objs[t].kind.closure == Some(id) :: None == Some(t)
  {
  }

  lemma AimedByOne(s: Loop, id: Id, t: Id)
    requires AimedOnlyBy(s, id, {t})
    ensures forall t' | IsAimed(s, t') && s.objs[t'].kind.closure == Some(id) :: Some(t) == Some(t')
  {
  }

  /** Registering one handle leaves another one fresh. */
  lemma RegistrationKeepsFresh(s: Loop, id: Id, timer: Option<Id>, willing: bool, other: Id, ts: set<Id>)
    requires FdInv(s) && RegInv(s) && Fresh(s, id) && Fresh(s, other) && id != other && AimedOnlyBy(s, other, ts)
    ensures var s' := EpollAdd(s, id, timer, willing);
            Fresh(s', other) && AimedOnlyBy(s', other, ts) && s'.added == s.added && s'.next == s.next
  {
    RegistrationFrame(s, id, timer, willing);
  }

  lemma AddHandleKeepsInv(s: Loop, id: Id, timed: bool, a: Answers)
    requires Inv(s) && Enabled(s, AddHandle(id, timed, a))
    ensures Inv(Apply(s, AddHandle(id, timed, a)))
  {
    AddKeepsInv(s, id, timed, a);
  }

  // ---------------------------------------------------------------------------------------------------
  // The next address
  // ---------------------------------------------------------------------------------------------------

  lemma GotoCommutesWithRegistration(s: Loop, pc: Pc, id: Id, timer: Option<Id>, willing: bool)
    requires s.ctl.Run? && id in s.objs
    ensures EpollAdd(s, id, timer, willing).ctl.Run?
    ensures Goto(EpollAdd(s, id, timer, willing), pc) == EpollAdd(Goto(s, pc), id, timer, willing)
  {
  }

  lemma GotoCommutesWithAdd(s: Loop, pc: Pc, id: Id, timed: bool, a: Answers)
    requires s.ctl.Run? && EPOLL in s.objs && id in s.objs && id < s.next
    ensures Add(s, id, timed, a).ctl.Run?
    ensures Goto(Add(s, id, timed, a), pc) == Add(Goto(s, pc), id, timed, a)
  {
    hide EpollAdd;
    if s.objs[EPOLL].fd.Some? {
      if timed {
        var s1 := Arm(s, id, a.os);
        assert Goto(s1, pc) == Arm(Goto(s, pc), id, a.os);
        GotoCommutesWithRegistration(s1, pc, s.next, None, a.timerWilling);
        RegistrationKeepsObjects(s1, s.next, None, a.timerWilling);
        GotoCommutesWithRegistration(EpollAdd(s1, s.next, None, a.timerWilling), pc, id, Some(s.next), a.willing);
      } else {
        GotoCommutesWithRegistration(s.(added := s.added + {id}), pc, id, None, a.willing);
      }
    }
  }

  lemma RegistrationKeepsObjects(s: Loop, id: Id, timer: Option<Id>, willing: bool)
    requires id in s.objs
    ensures EpollAdd(s, id, timer, willing).objs == s.objs
  {
  }

  /** The handler of the failed attempt is on its way out, and the attempt at the next address is made. */
  lemma NextAttemptKeepsInv(s: Loop, os: Os)
    requires Inv(s) && Connecting(s) && !LastAddress(s) && OsCan(s, os)
    ensures var k := CurrentKind(s);
            k.chain in s.chains && Inv(Goto(NewAttempt(s, k.chain, s.chains[k.chain].len, k.pos + 1, os), Closing))
  {
    hide FdInv, RegInv, TimerInv, LogInv, ChainInv, HistoryInv, DisconnectIsLast;
    var k := CurrentKind(s);
    ActiveIsCurrent(s);
    DispatchedIsRegistered(s);
    var s1 := Goto(s, Closing);
    PlainMoveKeepsInv(s, s1);
    assert Doomed(s1, s.ctl.hdl);
    ChainIsNumbered(s, k.chain);
    NewAttemptKeepsInv(s1, NewAttempt(s1, k.chain, s.chains[k.chain].len, k.pos + 1, os),
                       k.chain, s.chains[k.chain].len, k.pos + 1, os);
  }

  lemma TryNextKeepsInv(s: Loop, os: Os, a: Answers)
    requires Inv(s) && Enabled(s, TryNext(os, a))
    ensures Inv(Apply(s, TryNext(os, a)))
  {
    hide Inv, Add;
    var k := CurrentKind(s);
    var timed := s.ctl.timer.Some? && s.ctl.timer.value in s.objs;
    NextAttemptKeepsInv(s, os);
    InvMeansOld(s);
    var bare := NewAttempt(s, k.chain, s.chains[k.chain].len, k.pos + 1, os);
    AddKeepsInv(Goto(bare, Closing), s.next, timed, a);
    GotoCommutesWithAdd(bare, Closing, s.next, timed, a);
  }

  lemma InvMeansOld(s: Loop)
    requires Inv(s)
    ensures EPOLL in s.objs && EPOLL in s.ext && EPOLL < s.next && s.next !in s.objs && s.next !in s.added
  {
    AddedAreOld(s);
  }

  lemma ChainIsNumbered(s: Loop, c: Chain)
    requires Inv(s) && c in s.chains
    ensures c < s.nextChain && s.chains[c].cur < s.next
  {
  }
}
