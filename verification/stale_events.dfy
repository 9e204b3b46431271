/** One batch of epoll_wait. It names descriptors, not handles, and while its events are served handles are
    removed, descriptors closed and their numbers reused. Which events still reach the handle they were
    raised for, which are dropped and which may reach another handle can be told when epoll_wait returns. */
module StaleEvents {
  import opened LoopModel
  import opened LoopInvariant
  import opened LoopSteps
  import opened LoopRegistry
  import opened LoopCreation
  import opened LoopTheorems
  import opened LoopRemoval
  import opened ChainEnds

  // ---------------------------------------------------------------------------------------------------
  // Timers
  // ---------------------------------------------------------------------------------------------------

  /** The timer of an entry was armed for its handle; timers are added when they are made, and no timer is
      aimed at a timer; and nothing is registered without an epoll descriptor. */
  ghost predicate TimerFacts(s: Loop) {
    && (forall fd | fd in s.reg && s.reg[fd].timer.Some? :: Armed(s.reg[fd].timer.value, s.reg[fd].hdl) in s.log)
    && (forall t | t in s.objs && s.objs[t].kind.Timer? :: t in s.added)
    && (forall t | IsAimed(s, t) && s.objs[t].kind.closure.value in s.objs ::
          !s.objs[s.objs[t].kind.closure.value].kind.Timer?)
    && (forall fd | fd in s.reg :: EPOLL in s.objs && s.objs[EPOLL].fd.Some?)
  }

  ghost predicate Good(s: Loop) {
    Inv(s) && TimerFacts(s)
  }

  /** `s'` has no handle and no entry that `s` has not, and at most disabled timers. */
  ghost predicate Descends(s: Loop, s': Loop) {
    && (forall fd | fd in s'.reg :: fd in s.reg && s'.reg[fd] == s.reg[fd])
    && (forall e | e in s.log :: e in s'.log)
    && s.added <= s'.added
    && (forall h | h in s'.objs :: h in s.objs && s'.objs[h].fd == s.objs[h].fd
                                   && (s'.objs[h].kind.Timer? <==> s.objs[h].kind.Timer?)
                                   && (IsAimed(s', h) ==> s'.objs[h] == s.objs[h]))
    && EPOLL in s'.objs
  }

  lemma DescentKeepsTimerFacts(s: Loop, s': Loop)
    requires TimerFacts(s) && Descends(s, s')
    ensures TimerFacts(s')
  {
  }

  lemma BirthKeepsTimerFacts(s: Loop, s': Loop)
    requires TimerFacts(s) && s.next !in s.objs && EPOLL in s.objs
    requires s'.reg == s.reg && s.added <= s'.added && (forall e | e in s.log :: e in s'.log)
    requires s'.objs.Keys == s.objs.Keys + {s.next} && forall h | h in s.objs :: s'.objs[h] == s.objs[h]
    requires var kind := s'.objs[s.next].kind;
             kind.Timer? ==> s.next in s'.added && kind.closure.Some? && kind.closure.value in s.objs
                             && !s.objs[kind.closure.value].kind.Timer?
    requires forall t | IsAimed(s, t) :: s.objs[t].kind.closure.value in s.objs
    ensures TimerFacts(s')
  {
    forall t | IsAimed(s', t)
      ensures var h := s'.objs[t].kind.closure.value; h in s'.objs ==> !s'.objs[h].kind.Timer?
    {
      if t != s.next {
        assert IsAimed(s, t);
      }
    }
  }

  lemma RegistrationKeepsTimerFacts(s: Loop, id: Id, timer: Option<Id>, willing: bool)
    requires TimerFacts(s) && id in s.objs && (timer.Some? ==> Armed(timer.value, id) in s.log)
    requires EPOLL in s.objs && s.objs[EPOLL].fd.Some?
    ensures TimerFacts(EpollAdd(s, id, timer, willing))
  {
    var s' := EpollAdd(s, id, timer, willing);
    forall t | IsAimed(s', t)
      ensures IsAimed(s, t)
    {
    }
  }

  lemma AimedAtLive(s: Loop)
    requires TimerInv(s)
    ensures forall t | IsAimed(s, t) :: s.objs[t].kind.closure.value in s.objs
  {
  }

  lemma AddKeepsTimerFacts(s: Loop, id: Id, timed: bool, a: Answers)
    requires Good(s) && id in s.objs && id !in s.added && EPOLL in s.objs
    ensures TimerFacts(Add(s, id, timed, a))
  {
    hide FdInv, RegInv, TimerInv, LogInv, ChainInv, HistoryInv, DisconnectIsLast, EpollAdd, TimerFacts;
    InvMeansOld(s);
    AimedAtLive(s);
    var s1 := s.(added := s.added + {id});
    MarkKeepsTimerFacts(s, s1);
    if s.objs[EPOLL].fd.Some? {
      if timed {
        NotAddedIsNoTimer(s, id);
        var s2 := Arm(s, id, a.os);
        BirthKeepsTimerFacts(s, s2);
        RegistrationKeepsTimerFacts(s2, s.next, None, a.timerWilling);
        var s3 := EpollAdd(s2, s.next, None, a.timerWilling);
        RegistrationKeepsLogAndObjects(s2, s.next, None, a.timerWilling);
        RegistrationKeepsTimerFacts(s3, id, Some(s.next), a.willing);
      } else {
        RegistrationKeepsTimerFacts(s1, id, None, a.willing);
      }
    }
  }

  lemma NotAddedIsNoTimer(s: Loop, id: Id)
    requires TimerFacts(s) && id in s.objs && id !in s.added
    ensures !s.objs[id].kind.Timer?
  {
  }

  lemma MarkKeepsTimerFacts(s: Loop, s': Loop)
    requires TimerFacts(s) && s' == s.(added := s'.added) && s.added <= s'.added
    ensures TimerFacts(s')
  {
    forall t | IsAimed(s', t)
      ensures IsAimed(s, t)
    {
    }
  }

  lemma RegistrationKeepsLogAndObjects(s: Loop, id: Id, timer: Option<Id>, willing: bool)
    requires id in s.objs
    ensures EpollAdd(s, id, timer, willing).objs == s.objs && EpollAdd(s, id, timer, willing).log == s.log
  {
  }

  /** The next attempt of a chain before it is added. */
  lemma AttemptIsGood(s: Loop, os: Os)
    requires Good(s) && Connecting(s) && !LastAddress(s) && OsCan(s, os)
    ensures var k := CurrentKind(s);
            k.chain in s.chains && Good(Goto(NewAttempt(s, k.chain, s.chains[k.chain].len, k.pos + 1, os), Closing))
  {
    hide FdInv, RegInv, TimerInv, LogInv, ChainInv, HistoryInv, DisconnectIsLast, TimerFacts;
    NextAttemptKeepsInv(s, os);
    InvMeansOld(s);
    AimedAtLive(s);
    var k := CurrentKind(s);
    BirthKeepsTimerFacts(s, Goto(NewAttempt(s, k.chain, s.chains[k.chain].len, k.pos + 1, os), Closing));
  }

  lemma TryNextKeepsTimerFacts(s: Loop, os: Os, a: Answers)
    requires Good(s) && Enabled(s, TryNext(os, a))
    ensures TimerFacts(Apply(s, TryNext(os, a)))
  {
    hide Inv, Add, TimerFacts;
    AttemptIsGood(s, os);
    InvMeansOld(s);
    var k := CurrentKind(s);
    var timed := s.ctl.timer.Some? && s.ctl.timer.value in s.objs;
    var bare := NewAttempt(s, k.chain, s.chains[k.chain].len, k.pos + 1, os);
    AddKeepsTimerFacts(Goto(bare, Closing), s.next, timed, a);
    GotoCommutesWithAdd(bare, Closing, s.next, timed, a);
  }

  lemma NewHandleKeepsTimerFacts(s: Loop, step: Step)
    requires Good(s) && Enabled(s, step) && (step.NewPlain? || step.NewChain?)
    ensures TimerFacts(Apply(s, step))
  {
    hide FdInv, RegInv, TimerInv, LogInv, ChainInv, HistoryInv, DisconnectIsLast, TimerFacts;
    InvMeansOld(s);
    AimedAtLive(s);
    BirthKeepsTimerFacts(s, Apply(s, step));
  }

  lemma ClosureDescends(s: Loop, t: Id, h: Id)
    requires EPOLL in s.objs && h in s.objs
    ensures Descends(s, RunClosure(s, t, h))
  {
  }

  lemma RemovalDescends(s: Loop, fd: Fd)
    requires EPOLL in s.objs
    ensures Descends(s, EpollDel(s, fd))
  {
  }

  lemma DisableDescends(s: Loop, timer: Option<Id>)
    requires EPOLL in s.objs
    ensures Descends(s, Disable(s, timer))
  {
  }

  lemma DescentTransitive(s: Loop, s1: Loop, s2: Loop)
    requires Descends(s, s1) && Descends(s1, s2)
    ensures Descends(s, s2)
  {
  }

  /** The steps that make no handle and register none. */
  predicate OnlyTakes(step: Step) {
    !step.NewPlain? && !step.NewChain? && !step.AddHandle? && !step.TryNext?
  }

  lemma DestructionDescends(s: Loop, id: Id)
    requires Enabled(s, Destroy(id)) && EPOLL in s.ext && EPOLL in s.objs
    ensures Descends(s, Apply(s, Destroy(id)))
  {
  }

  /** `s'` has the handles and entries of `s`. */
  lemma MoveDescends(s: Loop, s': Loop)
    requires s'.objs == s.objs && s'.reg == s.reg && s.added <= s'.added && s.log <= s'.log && EPOLL in s.objs
    ensures Descends(s, s')
  {
  }

  lemma ConnectDescends(s: Loop)
    requires Enabled(s, ConnectReturns) && EPOLL in s.objs
    ensures Descends(s, Apply(s, ConnectReturns))
  {
    hide Disable;
    var h := s.ctl.hdl;
    var s1 := s.(objs := s.objs[h := s.objs[h].(kind := s.objs[h].kind.(connected := true))]);
    assert Descends(s, s1);
    DisableDescends(s1, s.ctl.timer);
    DescentTransitive(s, s1, Disable(s1, s.ctl.timer));
    DisableGrows(s1, s.ctl.timer);
    MoveDescends(Disable(s1, s.ctl.timer), Apply(s, ConnectReturns));
    DescentTransitive(s, Disable(s1, s.ctl.timer), Apply(s, ConnectReturns));
  }

  /** `s1` is an intermediate state of the step, after which the handles and entries stay as they are. */
  lemma StepDescendsVia(s: Loop, s1: Loop, s': Loop)
    requires Descends(s, s1) && s'.objs == s1.objs && s'.reg == s1.reg && s1.added <= s'.added && s1.log <= s'.log
    ensures Descends(s, s')
  {
  }

  lemma StepDescends(s: Loop, step: Step)
    requires Enabled(s, step) && OnlyTakes(step) && EPOLL in s.ext && EPOLL in s.objs
    ensures Descends(s, Apply(s, step))
  {
    hide EpollDel, RunClosure, Disable, Referenced, Descends;
    if step.Return? {
      MoveDescends(s, s);
      RemovalDescends(s, s.ctl.fd);
      RemovalGrows(s, s.ctl.fd);
      StepDescendsVia(s, if s.ctl.pc.keep then s else EpollDel(s, s.ctl.fd), Apply(s, step));
    } else if step.Fire? {
      FireDescends(s);
    } else if step.GetSockOptFails? || step.FailReturns? {
      MoveDescends(s, s);
      DisableDescends(s, s.ctl.timer);
      DisableGrows(s, s.ctl.timer);
      var s1 := if step.GetSockOptFails? || s.ctl.pc.disable then Disable(s, s.ctl.timer) else s;
      StepDescendsVia(s, s1, Apply(s, step));
    } else if step.ConnectReturns? {
      ConnectDescends(s);
    } else if step.Destroy? {
      DestructionDescends(s, step.id);
    } else {
      MoveDescends(s, Apply(s, step));
    }
  }

  lemma FireDescends(s: Loop)
    requires Enabled(s, Fire) && EPOLL in s.objs
    ensures Descends(s, Apply(s, Fire))
  {
    hide RunClosure, Descends;
    var closure := CurrentKind(s).closure;
    MoveDescends(s, s);
    if closure.Some? {
      ClosureDescends(s, s.ctl.hdl, closure.value);
      ClosureGrows(s, s.ctl.hdl, closure.value);
    }
    StepDescendsVia(s, if closure.Some? then RunClosure(s, s.ctl.hdl, closure.value) else s, Apply(s, Fire));
  }

  lemma StepKeepsTimerFacts(s: Loop, step: Step)
    requires Good(s) && Enabled(s, step)
    ensures TimerFacts(Apply(s, step))
  {
    hide Inv, TimerFacts, Descends, Apply, Enabled;
    InvMeansOld(s);
    match step
    case AddHandle(id, timed, a) => AddHandleKeepsTimerFacts(s, id, timed, a);
    case TryNext(os, a) => TryNextKeepsTimerFacts(s, os, a);
    case NewPlain(_) => NewHandleKeepsTimerFacts(s, step);
    case NewChain(_, _) => NewHandleKeepsTimerFacts(s, step);
    case _ =>
      StepDescends(s, step);
      DescentKeepsTimerFacts(s, Apply(s, step));
  }

  lemma AddHandleKeepsTimerFacts(s: Loop, id: Id, timed: bool, a: Answers)
    requires Good(s) && Enabled(s, AddHandle(id, timed, a))
    ensures TimerFacts(Apply(s, AddHandle(id, timed, a)))
  {
    hide Inv, TimerFacts, Add;
    AddKeepsTimerFacts(s, id, timed, a);
  }

  lemma StepIsGood(s: Loop, step: Step)
    requires Good(s) && Enabled(s, step)
    ensures Good(Apply(s, step))
  {
    hide Inv, TimerFacts, Enabled, Apply;
    StepKeepsInv(s, step);
    StepKeepsTimerFacts(s, step);
  }

  lemma {:induction false} RunIsGood(run: seq<Loop>, epfd: Option<Fd>, n: nat)
    requires IsRun(run) && run[0] == Init(epfd) && n < |run|
    ensures Good(run[n])
  {
    hide Inv, Enabled, Apply;
    if n == 0 {
      InitInv(epfd);
    } else {
      RunIsGood(run, epfd, n - 1);
      assert Next(run[n - 1], run[n]);
      var step :| Enabled(run[n - 1], step) && run[n] == Apply(run[n - 1], step);
      StepIsGood(run[n - 1], step);
    }
  }

  lemma ReachableIsGood(s: Loop)
    requires Reachable(s)
    ensures Good(s)
  {
    hide Next, Good;
    var epfd :| Reach(Init(epfd), s);
    var run :| IsRun(run) && run[0] == Init(epfd) && run[|run| - 1] == s;
    RunIsGood(run, epfd, |run| - 1);
  }

  // ---------------------------------------------------------------------------------------------------
  // Single steps
  // ---------------------------------------------------------------------------------------------------

  lemma AddKeepsEntry(s: Loop, id: Id, timed: bool, a: Answers, fd: Fd)
    requires id in s.objs && EPOLL in s.objs && fd in s.reg
    ensures fd in Add(s, id, timed, a).reg && Add(s, id, timed, a).reg[fd] == s.reg[fd]
  {
    hide EpollAdd;
    if s.objs[EPOLL].fd.Some? {
      if timed {
        var s2 := Arm(s, id, a.os);
        RegistrationKeepsEntry(s2, s.next, None, a.timerWilling, fd);
        RegistrationKeepsLogAndObjects(s2, s.next, None, a.timerWilling);
        RegistrationKeepsEntry(EpollAdd(s2, s.next, None, a.timerWilling), id, Some(s.next), a.willing, fd);
      } else {
        RegistrationKeepsEntry(s.(added := s.added + {id}), id, None, a.willing, fd);
      }
    }
  }

  lemma RegistrationKeepsEntry(s: Loop, id: Id, timer: Option<Id>, willing: bool, fd: Fd)
    requires id in s.objs && fd in s.reg
    ensures var s' := EpollAdd(s, id, timer, willing); fd in s'.reg && s'.reg[fd] == s.reg[fd]
  {
  }

  /** `s` runs the timer of `h`. */
  ghost predicate TimesOut(s: Loop, h: Id) {
    s.ctl.Run? && s.ctl.hdl in s.objs && s.objs[s.ctl.hdl].kind == Timer(Some(h))
  }

  lemma TryNextKeepsEntry(s: Loop, os: Os, a: Answers, fd: Fd)
    requires Enabled(s, TryNext(os, a)) && fd in s.reg
    ensures fd in Apply(s, TryNext(os, a)).reg && Apply(s, TryNext(os, a)).reg[fd] == s.reg[fd]
  {
    hide Add;
    var k := CurrentKind(s);
    var timed := s.ctl.timer.Some? && s.ctl.timer.value in s.objs;
    var bare := NewAttempt(s, k.chain, s.chains[k.chain].len, k.pos + 1, os);
    AddKeepsEntry(bare, s.next, timed, a, fd);
  }

  lemma RemovalKeepsEntry(s: Loop, fd: Fd, f: Fd)
    requires f in s.reg && f != fd
    ensures f in EpollDel(s, fd).reg && EpollDel(s, fd).reg[f] == s.reg[f]
  {
  }

  lemma DisableKeepsEntries(s: Loop, timer: Option<Id>)
    ensures Disable(s, timer).reg == s.reg
  {
  }

  lemma FireKeepsEntry(s: Loop, f: Fd)
    requires Inv(s) && Enabled(s, Fire) && f in s.reg && !TimesOut(s, s.reg[f].hdl)
    ensures f in Apply(s, Fire).reg && Apply(s, Fire).reg[f] == s.reg[f]
  {
    hide TimerInv, LogInv, ChainInv, HistoryInv, DisconnectIsLast;
    var closure := CurrentKind(s).closure;
    if closure.Some? {
      ClosureRemovesTarget(s, closure.value);
    }
  }

  /** The entry of another handle than the dispatched one only goes if the dispatched handle is its timer. */
  lemma StepKeepsOtherEntry(s: Loop, step: Step, f: Fd)
    requires Inv(s) && Enabled(s, step) && f in s.reg
    requires s.ctl.Run? ==> s.ctl.fd != f && !TimesOut(s, s.reg[f].hdl)
    ensures f in Apply(s, step).reg && Apply(s, step).reg[f] == s.reg[f]
  {
    hide Inv, Add, EpollDel, Disable, RunClosure, TimesOut, Referenced;
    match step
    case AddHandle(id, timed, a) => AddKeepsEntry(s, id, timed, a, f);
    case TryNext(os, a) => TryNextKeepsEntry(s, os, a, f);
    case Return => RemovalKeepsEntry(s, s.ctl.fd, f);
    case Fire => FireKeepsEntry(s, f);
    case GetSockOptFails => DisableKeepsEntries(s, s.ctl.timer);
    case ConnectReturns =>
      var h := s.ctl.hdl;
      var s1 := s.(objs := s.objs[h := s.objs[h].(kind := s.objs[h].kind.(connected := true))]);
      DisableKeepsEntries(s1, s.ctl.timer);
    case FailReturns => DisableKeepsEntries(s, s.ctl.timer);
    case _ =>
  }

  /** `h` stays a timer or no timer, and is disabled only in the dispatch of the handle it is the timer of. */
  ghost predicate KindStays(s: Loop, s': Loop, h: Id)
    requires h in s.objs && h in s'.objs
  {
    && (s'.objs[h].kind.Timer? <==> s.objs[h].kind.Timer?)
    && (s.objs[h].kind.Timer? && !(s.ctl.Run? && s.ctl.timer == Some(h)) ==> s'.objs[h].kind == s.objs[h].kind)
    && (IsAimed(s', h) ==> s'.objs[h].kind == s.objs[h].kind)
  }

  lemma DisableKeepsKind(s: Loop, h: Id)
    requires s.ctl.Run? && h in s.objs
    ensures h in Disable(s, s.ctl.timer).objs && KindStays(s, Disable(s, s.ctl.timer), h)
  {
  }

  lemma StepKeepsKind(s: Loop, step: Step, h: Id)
    requires Enabled(s, step) && h in s.objs && h < s.next && step != Destroy(h)
    ensures h in Apply(s, step).objs && KindStays(s, Apply(s, step), h)
  {
    hide Add, NewAttempt, EpollDel, RunClosure, Disable, Referenced;
    match step
    case AddHandle(id, timed, a) => AddKeepsHandle(s, id, timed, a, h);
    case NewChain(len, os) => NewAttemptKeepsHandle(s, s.nextChain, len, 0, os, h);
    case TryNext(os, a) => TryNextKeepsHandle(s, os, a, h);
    case Return => RemovalKeepsHandles(s, s.ctl.fd);
    case Fire =>
      var closure := CurrentKind(s).closure;
      if closure.Some? {
        ClosureKeepsHandles(s, s.ctl.hdl, closure.value);
      }
    case GetSockOptFails => DisableKeepsKind(s, h);
    case ConnectReturns =>
      var x := s.ctl.hdl;
      DisableKeepsKind(s.(objs := s.objs[x := s.objs[x].(kind := s.objs[x].kind.(connected := true))]), h);
    case FailReturns => DisableKeepsKind(s, h);
    case _ =>
  }

  /** A handle that exists after a step and is not new was there before, with the same descriptor. */
  lemma StepMakesOnlyNew(s: Loop, step: Step, h: Id)
    requires Enabled(s, step) && h < s.next && h in Apply(s, step).objs
    ensures h in s.objs && Apply(s, step).objs[h].fd == s.objs[h].fd && KindStays(s, Apply(s, step), h)
  {
    hide Enabled, Apply, KindStays;
    if h !in s.objs {
      StepKeepsDestroyed(s, step, h);
      assert false;
    } else if step == Destroy(h) {
      DestructionIsFinal(s, h);
      assert false;
    } else {
      StepKeepsHandle(s, step, h);
      StepKeepsKind(s, step, h);
    }
  }

  lemma DestructionIsFinal(s: Loop, h: Id)
    requires Enabled(s, Destroy(h))
    ensures h !in Apply(s, Destroy(h)).objs
  {
  }

  lemma AddAimsAtNew(s: Loop, id: Id, timed: bool, a: Answers, t: Id)
    requires id in s.objs && EPOLL in s.objs && t !in s.objs && t in Add(s, id, timed, a).objs
    ensures Add(s, id, timed, a).objs[t].kind == Timer(Some(id))
  {
  }

  lemma TryNextAimsAtNew(s: Loop, os: Os, a: Answers, t: Id)
    requires Enabled(s, TryNext(os, a)) && t !in s.objs && t in Apply(s, TryNext(os, a)).objs
    ensures Apply(s, TryNext(os, a)).objs[t].kind.Timer? ==>
              Apply(s, TryNext(os, a)).objs[t].kind == Timer(Some(s.next))
  {
    hide Add;
    var k := CurrentKind(s);
    var timed := s.ctl.timer.Some? && s.ctl.timer.value in s.objs;
    var bare := NewAttempt(s, k.chain, s.chains[k.chain].len, k.pos + 1, os);
    if t in bare.objs {
      AddKeepsHandle(bare, s.next, timed, a, t);
    } else {
      AddAimsAtNew(bare, s.next, timed, a, t);
    }
  }

  /** No timer comes to be aimed at a handle that was added already. */
  lemma StepKeepsAimers(s: Loop, step: Step, t: Id, h: Id)
    requires Inv(s) && Enabled(s, step) && h in s.added
    requires t in Apply(s, step).objs && Apply(s, step).objs[t].kind == Timer(Some(h))
    ensures t in s.objs && s.objs[t].kind == Timer(Some(h))
  {
    hide Inv, Enabled, Apply;
    InvMeansOld(s);
    if t in s.objs {
      OwnersAreOld(s);
      StepMakesOnlyNew(s, step, t);
      assert IsAimed(Apply(s, step), t);
    } else {
      NewTimersAimAtNew(s, step, t, h);
    }
  }

  lemma NewTimersAimAtNew(s: Loop, step: Step, t: Id, h: Id)
    requires Enabled(s, step) && t !in s.objs && s.next !in s.added
    requires t in Apply(s, step).objs && Apply(s, step).objs[t].kind == Timer(Some(h))
    ensures h !in s.added
  {
    hide Add, EpollDel, RunClosure, Disable, Referenced;
    match step
    case AddHandle(id, timed, a) => AddAimsAtNew(s, id, timed, a, t);
    case TryNext(os, a) => TryNextAimsAtNew(s, os, a, t);
    case Return => RemovalKeepsHandles(s, s.ctl.fd);
    case Fire =>
      var closure := CurrentKind(s).closure;
      if closure.Some? {
        ClosureKeepsHandles(s, s.ctl.hdl, closure.value);
      }
    case GetSockOptFails => DisableMakesNone(s, s.ctl.timer);
    case ConnectReturns =>
      var x := s.ctl.hdl;
      DisableMakesNone(s.(objs := s.objs[x := s.objs[x].(kind := s.objs[x].kind.(connected := true))]), s.ctl.timer);
    case FailReturns => DisableMakesNone(s, s.ctl.timer);
    case _ =>
  }

  lemma DisableMakesNone(s: Loop, timer: Option<Id>)
    ensures Disable(s, timer).objs.Keys == s.objs.Keys
  {
  }

  // ---------------------------------------------------------------------------------------------------
  // Serving one event
  // ---------------------------------------------------------------------------------------------------

  /** The program runs inside the handlers of connections and listeners; timers do not call it. */
  ghost predicate InCallback(s: Loop) {
    s.ctl.Run? && s.ctl.hdl in s.objs && !s.objs[s.ctl.hdl].kind.Timer?
  }

  /** What can happen while an event is served. */
  ghost predicate Serving(s: Loop, step: Step) {
    && Enabled(s, step)
    && (IsProgramStep(step) ==> InCallback(s))
    && (s.ctl.Idle? ==> Apply(s, step).ctl.Idle?)
  }

  ghost predicate ServiceStep(s: Loop, s': Loop) {
    exists step :: Serving(s, step) && s' == Apply(s, step)
  }

  ghost predicate IsService(run: seq<Loop>) {
    && |run| > 0
    && forall i, j {:trigger ServiceStep(run[i], run[j])} | 0 <= i < j < |run| && j == i + 1 ::
         ServiceStep(run[i], run[j])
  }

  ghost predicate Leads(s: Loop, s': Loop) {
    exists run :: IsService(run) && run[0] == s && run[|run| - 1] == s'
  }

  /** The event for `fd` is served between `s` and `s'`: it is dispatched to whatever handle is registered
      under `fd` by then, or to none; the handler runs; and destructors that are due may run. */
  ghost predicate Served(s: Loop, fd: Fd, s': Loop) {
    s.ctl.Idle? && Leads(Apply(s, Dispatch(fd)), s') && s'.ctl.Idle?
  }

  lemma LeadsSelf(s: Loop)
    ensures Leads(s, s)
  {
    assert IsService([s]);
  }

  lemma LeadsOn(s: Loop, s1: Loop, step: Step)
    requires Leads(s, s1) && Serving(s1, step)
    ensures Leads(s, Apply(s1, step))
  {
    hide Enabled, Apply;
    var run :| IsService(run) && run[0] == s && run[|run| - 1] == s1;
    var s2 := Apply(s1, step);
    assert ServiceStep(s1, s2);
    var longer := run + [s2];
    forall i, j | 0 <= i < j < |longer| && j == i + 1
      ensures ServiceStep(longer[i], longer[j])
    {
      if j < |run| {
        assert ServiceStep(run[i], run[j]);
      }
    }
    assert IsService(longer) && longer[|longer| - 1] == s2;
  }

  /** The `n`-th step of a service. */
  lemma ServiceAt(run: seq<Loop>, n: nat) returns (step: Step)
    requires IsService(run) && 0 < n < |run|
    ensures Serving(run[n - 1], step) && run[n] == Apply(run[n - 1], step)
  {
    assert ServiceStep(run[n - 1], run[n]);
    step :| Serving(run[n - 1], step) && run[n] == Apply(run[n - 1], step);
  }

  lemma {:induction false} ServiceIsGood(run: seq<Loop>, n: nat)
    requires IsService(run) && Good(run[0]) && n < |run|
    ensures Good(run[n]) && run[0].next <= run[n].next && run[0].added <= run[n].added
  {
    hide Good, Apply, Enabled, IsService;
    if n > 0 {
      ServiceIsGood(run, n - 1);
      var step := ServiceAt(run, n);
      StepIsGood(run[n - 1], step);
      StepGrows(run[n - 1], step);
    }
  }

  lemma AddGrows(s: Loop, id: Id, timed: bool, a: Answers)
    requires id in s.objs && EPOLL in s.objs
    ensures s.next <= Add(s, id, timed, a).next && s.added <= Add(s, id, timed, a).added
  {
  }

  lemma StepGrows(s: Loop, step: Step)
    requires Enabled(s, step)
    ensures s.next <= Apply(s, step).next && s.added <= Apply(s, step).added
  {
    hide Add, EpollDel, RunClosure, Disable, Referenced;
    match step
    case AddHandle(id, timed, a) => AddGrows(s, id, timed, a);
    case TryNext(os, a) =>
      var k := CurrentKind(s);
      var timed := s.ctl.timer.Some? && s.ctl.timer.value in s.objs;
      AddGrows(NewAttempt(s, k.chain, s.chains[k.chain].len, k.pos + 1, os), s.next, timed, a);
    case Return => RemovalGrows(s, s.ctl.fd);
    case Fire =>
      var closure := CurrentKind(s).closure;
      if closure.Some? {
        ClosureGrows(s, s.ctl.hdl, closure.value);
      }
    case GetSockOptFails => DisableGrows(s, s.ctl.timer);
    case ConnectReturns =>
      var h := s.ctl.hdl;
      DisableGrows(s.(objs := s.objs[h := s.objs[h].(kind := s.objs[h].kind.(connected := true))]), s.ctl.timer);
    case FailReturns => DisableGrows(s, s.ctl.timer);
    case _ =>
  }

  lemma RemovalGrows(s: Loop, fd: Fd)
    ensures EpollDel(s, fd).next == s.next && EpollDel(s, fd).added == s.added && EpollDel(s, fd).log == s.log
  {
  }

  lemma ClosureGrows(s: Loop, t: Id, h: Id)
    requires h in s.objs
    ensures RunClosure(s, t, h).next == s.next && RunClosure(s, t, h).added == s.added
    ensures RunClosure(s, t, h).ctl == s.ctl
  {
  }

  lemma DisableGrows(s: Loop, timer: Option<Id>)
    ensures Disable(s, timer).next == s.next && Disable(s, timer).added == s.added && Disable(s, timer).ctl == s.ctl
  {
  }

  /** The dispatched handle. */
  lemma HandlerAt(s: Loop, f: Fd)
    requires Inv(s) && f in s.reg
    ensures s.ctl.Run? ==> s.ctl.hdl in s.objs && s.ctl.fd in s.reg && s.reg[s.ctl.fd].hdl == s.ctl.hdl
    ensures s.reg[f].hdl in s.objs && s.reg[f].hdl < s.next && s.reg[f].hdl in s.added
    ensures s.objs[s.reg[f].hdl].fd == Some(f) && Registered(s, s.reg[f].hdl)
  {
    hide TimerInv, LogInv, ChainInv, HistoryInv, DisconnectIsLast;
  }

  /** An entry stays in a service of another event, unless the service runs the timer of its handle. */
  lemma {:induction false} EntryStays(run: seq<Loop>, f: Fd, n: nat)
    requires IsService(run) && Good(run[0]) && f in run[0].reg && n < |run|
    requires run[0].ctl.Run? ==> run[0].ctl.fd != f && !TimesOut(run[0], run[0].reg[f].hdl)
    ensures f in run[n].reg && run[n].reg[f] == run[0].reg[f]
    ensures run[n].ctl.Run? ==> run[0].ctl.Run? && run[n].ctl == run[0].ctl.(pc := run[n].ctl.pc)
    ensures run[n].ctl.Run? ==> !TimesOut(run[n], run[0].reg[f].hdl)
    ensures var h := run[0].reg[f].hdl;
            h in run[n].objs && h in run[0].objs && (run[n].objs[h].kind.Timer? <==> run[0].objs[h].kind.Timer?)
  {
    hide Inv, TimerFacts, Apply, Enabled, IsService;
    HandlerAt(run[0], f);
    if n > 0 {
      var s, s' := run[n - 1], run[n];
      EntryStays(run, f, n - 1);
      var step := ServiceAt(run, n);
      ServiceIsGood(run, n - 1);
      ServiceIsGood(run, n);
      HandlerAt(s, f);
      HandlerAt(s', f) by { StepKeepsOtherEntry(s, step, f); }
      StepKeepsOtherEntry(s, step, f);
      StepMakesOnlyNew(s, step, run[0].reg[f].hdl);
      if s'.ctl.Run? {
        StepKeepsEntry(s, step);
        DispatchedIsRegistered(s);
        StepMakesOnlyNew(s, step, s.ctl.hdl);
        TimesOutBefore(s, s', run[0].reg[f].hdl);
      }
    }
  }

  lemma TimesOutBefore(s: Loop, s': Loop, h: Id)
    requires s.ctl.Run? && s'.ctl.Run? && s'.ctl.hdl == s.ctl.hdl && s.ctl.hdl in s.objs
    requires s.ctl.hdl in s'.objs ==> KindStays(s, s', s.ctl.hdl)
    ensures TimesOut(s', h) ==> TimesOut(s, h)
  {
    assert TimesOut(s', h) ==> IsAimed(s', s.ctl.hdl);
  }

  /** A timer that awaits its turn keeps its closure, unless the service is that of its own handle. */
  lemma {:induction false} TimerStays(run: seq<Loop>, f: Fd, n: nat)
    requires IsService(run) && Good(run[0]) && f in run[0].reg && n < |run|
    requires run[0].reg[f].hdl in run[0].objs && run[0].objs[run[0].reg[f].hdl].kind.Timer?
    requires run[0].ctl.Run? ==> run[0].ctl.fd != f && run[0].ctl.timer != Some(run[0].reg[f].hdl)
    ensures f in run[n].reg && run[n].reg[f] == run[0].reg[f]
    ensures var t := run[0].reg[f].hdl; t in run[n].objs && run[n].objs[t].kind == run[0].objs[t].kind
  {
    hide Inv, Apply, Enabled, IsService;
    var t := run[0].reg[f].hdl;
    HandlerAt(run[0], f);
    assert !TimesOut(run[0], t);
    EntryStays(run, f, n);
    if n > 0 {
      TimerStays(run, f, n - 1);
      EntryStays(run, f, n - 1);
      var step := ServiceAt(run, n);
      ServiceIsGood(run, n - 1);
      HandlerAt(run[n - 1], f);
      StepMakesOnlyNew(run[n - 1], step, t);
    }
  }

  /** What the registered handle's timer does when it is dispatched. */
  ghost predicate AboutToTimeOut(s: Loop, f: Fd) {
    && InHandler(s, Enter) && f in s.reg && f != s.ctl.fd
    && s.objs[s.ctl.hdl].kind == Timer(Some(s.reg[f].hdl))
  }

  lemma StepTimesOut(s: Loop, step: Step, f: Fd)
    requires Inv(s) && Serving(s, step) && AboutToTimeOut(s, f)
    ensures var s' := Apply(s, step);
            || (AboutToTimeOut(s', f) && s'.ctl == s.ctl && s'.reg[f] == s.reg[f])
            || TimedOut(s.ctl.hdl, s.reg[f].hdl) in s'.log
  {
    hide TimerInv, LogInv, ChainInv, HistoryInv, DisconnectIsLast, Referenced;
    HandlerAt(s, f);
    if step == Fire {
      FireRecords(s, f);
    } else {
      assert step.Destroy?;
      DestructionSparesDispatched(s, step.id);
    }
  }

  lemma FireRecords(s: Loop, f: Fd)
    requires Inv(s) && Enabled(s, Fire) && AboutToTimeOut(s, f)
    ensures TimedOut(s.ctl.hdl, s.reg[f].hdl) in Apply(s, Fire).log
  {
    hide TimerInv, LogInv, ChainInv, HistoryInv, DisconnectIsLast;
    HandlerAt(s, f);
    var h := s.reg[f].hdl;
    ClosureRemovesTarget(s, h);
    assert f in s.reg && f !in EpollDelHandle(s, h).reg;
    assert Apply(s, Fire).log == s.log + [TimedOut(s.ctl.hdl, h)];
  }

  lemma DestructionSparesDispatched(s: Loop, id: Id)
    requires Enabled(s, Destroy(id)) && s.ctl.Run?
    ensures id != s.ctl.hdl
  {
  }

  lemma {:induction false} TargetIsTimedOut(run: seq<Loop>, f: Fd, n: nat)
    requires IsService(run) && Good(run[0]) && n < |run| && AboutToTimeOut(run[0], f)
    ensures || (AboutToTimeOut(run[n], f) && run[n].ctl == run[0].ctl && run[n].reg[f] == run[0].reg[f])
            || TimedOut(run[0].ctl.hdl, run[0].reg[f].hdl) in run[n].log
  {
    hide Good, Apply, Enabled, IsService, AboutToTimeOut;
    AboutMeans(run[0], f);
    if n > 0 {
      TargetIsTimedOut(run, f, n - 1);
      var step := ServiceAt(run, n);
      ServiceIsGood(run, n - 1);
      GoodIsInv(run[n - 1]);
      StepKeepsLog(run[n - 1], step);
      AboutMeans(run[n - 1], f);
      if AboutToTimeOut(run[n - 1], f) && run[n - 1].ctl == run[0].ctl && run[n - 1].reg[f] == run[0].reg[f] {
        StepTimesOut(run[n - 1], step, f);
        AboutMeans(run[n], f);
      }
    }
  }

  lemma AboutMeans(s: Loop, f: Fd)
    ensures AboutToTimeOut(s, f) ==> s.ctl.Run? && f in s.reg
  {
  }

  lemma GoodIsInv(s: Loop)
    requires Good(s)
    ensures Inv(s)
  {
  }

  /** Without the program and without a handler that calls it nothing is registered. */
  lemma SystemStepShrinks(s: Loop, step: Step)
    requires Inv(s) && Serving(s, step) && !InCallback(s)
    ensures !InCallback(Apply(s, step))
    ensures forall f | f in Apply(s, step).reg :: f in s.reg && Apply(s, step).reg[f] == s.reg[f]
  {
    hide Inv, TimerInv, LogInv, ChainInv, HistoryInv, DisconnectIsLast, Referenced;
    if s.ctl.Run? {
      DispatchedIsRegistered(s);
    }
    match step
    case Return => RemovalShrinks(s, s.ctl.fd);
    case Fire =>
      var closure := CurrentKind(s).closure;
      if closure.Some? && s.objs[closure.value].fd.Some? {
        RemovalShrinks(s, s.objs[closure.value].fd.value);
      }
    case Destroy(id) =>
      if s.ctl.Run? {
        DestructionSparesDispatched(s, id);
      }
    case _ =>
  }

  lemma RemovalShrinks(s: Loop, fd: Fd)
    ensures forall f | f in EpollDel(s, fd).reg :: f in s.reg && EpollDel(s, fd).reg[f] == s.reg[f]
  {
  }

  lemma {:induction false} NothingRegistered(run: seq<Loop>, n: nat)
    requires IsService(run) && Good(run[0]) && n < |run| && !InCallback(run[0])
    ensures !InCallback(run[n]) && forall f | f in run[n].reg :: f in run[0].reg && run[n].reg[f] == run[0].reg[f]
  {
    hide Inv, TimerFacts, Apply, Enabled, IsService, InCallback;
    if n > 0 {
      NothingRegistered(run, n - 1);
      var step := ServiceAt(run, n);
      ServiceIsGood(run, n - 1);
      SystemStepShrinks(run[n - 1], step);
    }
  }

  /** A dispatched timer is removed by the end of its service. */
  lemma TimerStepRemoves(s: Loop, step: Step)
    requires Inv(s) && Serving(s, step) && s.ctl.Run? && s.ctl.hdl in s.objs && s.objs[s.ctl.hdl].kind.Timer?
    ensures var s' := Apply(s, step);
            || Removed(s', s.ctl.hdl)
            || (s'.ctl.Run? && s'.ctl.hdl == s.ctl.hdl && s.ctl.hdl in s'.objs && s'.objs[s.ctl.hdl].kind.Timer?)
  {
    hide FdInv, TimerInv, LogInv, ChainInv, HistoryInv, DisconnectIsLast, Referenced;
    DispatchedIsRegistered(s);
    if step == Destroy(s.ctl.hdl) {
      DestructionSparesDispatched(s, s.ctl.hdl);
    }
  }

  lemma {:induction false} TimerIsRemoved(run: seq<Loop>, n: nat)
    requires IsService(run) && Good(run[0]) && n < |run|
    requires run[0].ctl.Run? && run[0].ctl.hdl in run[0].objs && run[0].objs[run[0].ctl.hdl].kind.Timer?
    ensures var t := run[0].ctl.hdl;
            || Removed(run[n], t)
            || (run[n].ctl.Run? && run[n].ctl.hdl == t && t in run[n].objs && run[n].objs[t].kind.Timer?)
  {
    hide Inv, TimerFacts, Apply, Enabled, IsService, Removed;
    if n > 0 {
      TimerIsRemoved(run, n - 1);
      var step := ServiceAt(run, n);
      ServiceIsGood(run, n - 1);
      if Removed(run[n - 1], run[0].ctl.hdl) {
        StepKeepsRemoved(run[n - 1], step, run[0].ctl.hdl);
      } else {
        TimerStepRemoves(run[n - 1], step);
      }
    }
  }

  lemma {:induction false} RemovedInService(run: seq<Loop>, n: nat, h: Id)
    requires IsService(run) && Good(run[0]) && n < |run| && Removed(run[0], h)
    ensures Removed(run[n], h)
  {
    hide Inv, TimerFacts, Apply, Enabled, IsService, Removed;
    if n > 0 {
      RemovedInService(run, n - 1, h);
      var step := ServiceAt(run, n);
      ServiceIsGood(run, n - 1);
      StepKeepsRemoved(run[n - 1], step, h);
    }
  }

  /** Timers aimed at a handle that was added, and handles with their descriptors, are old. */
  lemma {:induction false} AimersAreOld(run: seq<Loop>, n: nat, t: Id, h: Id)
    requires IsService(run) && Good(run[0]) && n < |run| && h in run[0].added
    requires t in run[n].objs && run[n].objs[t].kind == Timer(Some(h))
    ensures t in run[0].objs && run[0].objs[t].kind == Timer(Some(h))
  {
    hide Inv, TimerFacts, Apply, Enabled, IsService;
    if n > 0 {
      var step := ServiceAt(run, n);
      ServiceIsGood(run, n - 1);
      StepKeepsAimers(run[n - 1], step, t, h);
      AimersAreOld(run, n - 1, t, h);
    }
  }

  lemma {:induction false} HandlesAreOld(run: seq<Loop>, n: nat, h: Id)
    requires IsService(run) && Good(run[0]) && n < |run| && h < run[0].next && h in run[n].objs
    ensures h in run[0].objs && run[n].objs[h].fd == run[0].objs[h].fd
    ensures run[n].objs[h].kind.Timer? <==> run[0].objs[h].kind.Timer?
  {
    hide Inv, TimerFacts, Apply, Enabled, IsService;
    if n > 0 {
      var step := ServiceAt(run, n);
      ServiceIsGood(run, n - 1);
      StepMakesOnlyNew(run[n - 1], step, h);
      HandlesAreOld(run, n - 1, h);
    }
  }

  // ---------------------------------------------------------------------------------------------------
  // What serving one event does to the others
  // ---------------------------------------------------------------------------------------------------

  /** The handle that is registered under `fd` is the timer of `h`. */
  ghost predicate TimerUnder(s: Loop, fd: Fd, h: Id) {
    fd in s.reg && s.reg[fd].hdl in s.objs && s.objs[s.reg[fd].hdl].kind == Timer(Some(h))
  }

  /** A handle is registered under `fd` whose handler calls the program. */
  ghost predicate CallsProgram(s: Loop, fd: Fd) {
    fd in s.reg && s.reg[fd].hdl in s.objs && !s.objs[s.reg[fd].hdl].kind.Timer?
  }

  lemma Dispatched(s: Loop, fd: Fd)
    requires Good(s) && s.ctl.Idle?
    ensures Enabled(s, Dispatch(fd)) && Good(Apply(s, Dispatch(fd)))
    ensures Apply(s, Dispatch(fd))
            == if fd in s.reg then s.(ctl := Run(fd, s.reg[fd].hdl, s.reg[fd].timer, Enter)) else s
  {
    StepIsGood(s, Dispatch(fd));
  }

  lemma ServiceRun(s: Loop, fd: Fd, s': Loop) returns (run: seq<Loop>)
    requires Good(s) && Served(s, fd, s')
    ensures |run| > 0 && IsService(run) && run[|run| - 1] == s' && Good(run[0]) && Good(s')
    ensures run[0] == if fd in s.reg then s.(ctl := Run(fd, s.reg[fd].hdl, s.reg[fd].timer, Enter)) else s
    ensures s'.ctl.Idle? && s.next <= s'.next && s.added <= s'.added
  {
    hide Good, ServiceStep;
    Dispatched(s, fd);
    run :| IsService(run) && run[0] == Apply(s, Dispatch(fd)) && run[|run| - 1] == s';
    ServiceIsGood(run, |run| - 1);
  }

  /** Another event leaves the entry for `f` alone, unless it is that of its handle's timer: then the handle is
      removed, and its number is not registered again. */
  lemma EventAndEntry(s: Loop, fd: Fd, s': Loop, f: Fd)
    requires Good(s) && Served(s, fd, s') && f in s.reg && f != fd
    ensures var h := s.reg[f].hdl;
            if TimerUnder(s, fd, h) then f !in s'.reg && Removed(s', h) && TimedOut(s.reg[fd].hdl, h) in s'.log
            else f in s'.reg && s'.reg[f] == s.reg[f] && h in s.objs && h in s'.objs
                 && (s'.objs[h].kind.Timer? <==> s.objs[h].kind.Timer?)
  {
    hide Inv, TimerFacts, IsService;
    var run := ServiceRun(s, fd, s');
    var h, n := s.reg[f].hdl, |run| - 1;
    HandlerAt(s, f);
    if TimerUnder(s, fd, h) {
      TargetIsTimedOut(run, f, n);
      TimedOutIsRemoved(s', s.reg[fd].hdl, h);
      NothingRegistered(run, n);
      if f in s'.reg {
        HandlerAt(s', f);
        assert false;
      }
    } else {
      EntryStays(run, f, n);
    }
  }

  lemma TimedOutIsRemoved(s: Loop, t: Id, h: Id)
    requires Inv(s) && TimedOut(t, h) in s.log
    ensures Removed(s, h)
  {
  }

  /** Another event than that of its handle leaves a waiting timer alone. */
  lemma EventAndTimer(s: Loop, fd: Fd, s': Loop, f: Fd)
    requires Good(s) && Served(s, fd, s') && f in s.reg && f != fd
    requires s.reg[f].hdl in s.objs && s.objs[s.reg[f].hdl].kind.Timer?
    requires fd in s.reg ==> s.reg[fd].timer != Some(s.reg[f].hdl)
    ensures f in s'.reg && s'.reg[f] == s.reg[f]
    ensures s.reg[f].hdl in s'.objs && s'.objs[s.reg[f].hdl].kind == s.objs[s.reg[f].hdl].kind
  {
    hide Inv, TimerFacts, IsService;
    var run := ServiceRun(s, fd, s');
    TimerStays(run, f, |run| - 1);
  }

  /** Only events of handlers that call the program add to the registry. */
  lemma EventRegisters(s: Loop, fd: Fd, s': Loop)
    requires Good(s) && Served(s, fd, s') && !CallsProgram(s, fd)
    ensures forall f | f in s'.reg :: f in s.reg && s'.reg[f] == s.reg[f]
  {
    hide Inv, TimerFacts, IsService;
    var run := ServiceRun(s, fd, s');
    NothingRegistered(run, |run| - 1);
  }

  lemma EventKeepsRemoved(s: Loop, fd: Fd, s': Loop, h: Id)
    requires Good(s) && Served(s, fd, s') && Removed(s, h)
    ensures Removed(s', h)
  {
    hide Inv, TimerFacts, IsService;
    var run := ServiceRun(s, fd, s');
    RemovedInService(run, |run| - 1, h);
  }

  lemma EventRemovesTimer(s: Loop, fd: Fd, s': Loop)
    requires Good(s) && Served(s, fd, s') && fd in s.reg && !CallsProgram(s, fd)
    ensures Removed(s', s.reg[fd].hdl)
  {
    hide Inv, TimerFacts, IsService;
    var run := ServiceRun(s, fd, s');
    HandlerAt(s, fd);
    TimerIsRemoved(run, |run| - 1);
  }

  lemma EventAndAimers(s: Loop, fd: Fd, s': Loop, t: Id, h: Id)
    requires Good(s) && Served(s, fd, s') && h in s.added && t in s'.objs && s'.objs[t].kind == Timer(Some(h))
    ensures t in s.objs && s.objs[t].kind == Timer(Some(h))
  {
    hide Inv, TimerFacts, IsService;
    var run := ServiceRun(s, fd, s');
    AimersAreOld(run, |run| - 1, t, h);
  }

  lemma EventAndHandles(s: Loop, fd: Fd, s': Loop, h: Id)
    requires Good(s) && Served(s, fd, s') && h < s.next && h in s'.objs
    ensures h in s.objs && s'.objs[h].fd == s.objs[h].fd
    ensures s'.objs[h].kind.Timer? <==> s.objs[h].kind.Timer?
  {
    hide Inv, TimerFacts, IsService;
    var run := ServiceRun(s, fd, s');
    HandlesAreOld(run, |run| - 1, h);
  }

  // ---------------------------------------------------------------------------------------------------
  // Serving a batch
  // ---------------------------------------------------------------------------------------------------

  /** What epoll_wait can return: different descriptors of the interest list, as many as there is room for. */
  ghost predicate IsBatch(s: Loop, events: seq<Fd>) {
    && s.ctl.Idle? && |events| <= MAX_EVENTS
    && (forall k | 0 <= k < |events| :: events[k] in s.interest)
    && (forall k, l | 0 <= k < l < |events| :: events[k] != events[l])
  }

  /** `states[k]` is the loop when the event for `events[k]` is looked up. */
  ghost predicate Serves(states: seq<Loop>, events: seq<Fd>) {
    && 0 < |states| <= |events| + 1
    && forall i, j {:trigger Served(states[i], events[i], states[j])} | 0 <= i < j < |states| && j == i + 1 ::
         Served(states[i], events[i], states[j])
  }

  lemma ServesOneMore(states: seq<Loop>, events: seq<Fd>, s': Loop)
    requires Serves(states, events) && |states| <= |events|
    requires Served(states[|states| - 1], events[|states| - 1], s')
    ensures Serves(states + [s'], events)
  {
    hide Served;
    var longer := states + [s'];
    forall i, j | 0 <= i < j < |longer| && j == i + 1
      ensures Served(longer[i], events[i], longer[j])
    {
      if j < |states| {
        assert Served(states[i], events[i], states[j]);
      }
    }
  }

  /** Event `l` is that of the timer of the handle that event `k` was raised for. */
  ghost predicate Aims(s: Loop, events: seq<Fd>, l: nat, k: nat)
    requires l < |events| && k < |events|
  {
    events[k] in s.reg && TimerUnder(s, events[l], s.reg[events[k]].hdl)
  }

  /** A batch that is being served from a good state. */
  ghost predicate Batch(states: seq<Loop>, events: seq<Fd>) {
    Serves(states, events) && Good(states[0]) && IsBatch(states[0], events)
  }

  lemma Raised(s: Loop, events: seq<Fd>, k: nat)
    requires Good(s) && IsBatch(s, events) && k < |events|
    ensures events[k] in s.reg
    ensures var h := s.reg[events[k]].hdl;
            h in s.objs && h < s.next && h in s.added && s.objs[h].fd == Some(events[k]) && Registered(s, h)
  {
    hide TimerInv, LogInv, ChainInv, HistoryInv, DisconnectIsLast;
    HandlerAt(s, events[k]);
  }

  lemma {:induction false} BatchState(states: seq<Loop>, events: seq<Fd>, a: nat)
    requires Batch(states, events) && a < |states|
    ensures Good(states[a]) && states[a].ctl.Idle?
    ensures states[0].next <= states[a].next && states[0].added <= states[a].added
  {
    hide Good, IsService, Served;
    if a > 0 {
      BatchState(states, events, a - 1);
      assert Served(states[a - 1], events[a - 1], states[a]);
      var run := ServiceRun(states[a - 1], events[a - 1], states[a]);
    }
  }

  lemma {:induction false} BatchHandles(states: seq<Loop>, events: seq<Fd>, a: nat, h: Id)
    requires Batch(states, events) && a < |states| && h < states[0].next && h in states[a].objs
    ensures h in states[0].objs && states[a].objs[h].fd == states[0].objs[h].fd
    ensures states[a].objs[h].kind.Timer? <==> states[0].objs[h].kind.Timer?
  {
    hide Good, Served;
    if a > 0 {
      BatchState(states, events, a - 1);
      assert Served(states[a - 1], events[a - 1], states[a]);
      EventAndHandles(states[a - 1], events[a - 1], states[a], h);
      BatchHandles(states, events, a - 1, h);
    }
  }

  lemma {:induction false} BatchAimers(states: seq<Loop>, events: seq<Fd>, a: nat, t: Id, h: Id)
    requires Batch(states, events) && a < |states| && h in states[0].added
    requires t in states[a].objs && states[a].objs[t].kind == Timer(Some(h))
    ensures t in states[0].objs && states[0].objs[t].kind == Timer(Some(h))
  {
    hide Good, Served;
    if a > 0 {
      BatchState(states, events, a - 1);
      assert Served(states[a - 1], events[a - 1], states[a]);
      EventAndAimers(states[a - 1], events[a - 1], states[a], t, h);
      BatchAimers(states, events, a - 1, t, h);
    }
  }

  lemma {:induction false} BatchRemoved(states: seq<Loop>, events: seq<Fd>, a: nat, b: nat, h: Id)
    requires Batch(states, events) && a <= b < |states| && Removed(states[a], h)
    ensures Removed(states[b], h)
  {
    hide Good, Served, Removed;
    if a < b {
      BatchRemoved(states, events, a, b - 1, h);
      BatchState(states, events, b - 1);
      assert Served(states[b - 1], events[b - 1], states[b]);
      EventKeepsRemoved(states[b - 1], events[b - 1], states[b], h);
    }
  }

  /** The entry under `fd` does not name a timer that is aimed at a handle registered elsewhere. */
  lemma TimerOfAnother(s: Loop, fd: Fd, t: Id, h: Id)
    requires Good(s) && fd in s.reg && t in s.objs && s.objs[t].kind == Timer(Some(h))
    requires h in s.objs && s.objs[h].fd != Some(fd)
    ensures s.reg[fd].timer != Some(t)
  {
    hide LogInv, ChainInv, HistoryInv, DisconnectIsLast;
    assert IsAimed(s, t);
    HandlerAt(s, fd);
  }

  lemma AimedIsLive(s: Loop, t: Id, h: Id)
    requires Inv(s) && t in s.objs && s.objs[t].kind == Timer(Some(h))
    ensures h in s.objs && h in s.added
    ensures Registered(s, h) ==> s.reg[s.objs[h].fd.value].timer == Some(t)
  {
    assert IsAimed(s, t);
  }

  /** A timer waits for its event. */
  lemma {:induction false} TimerWaits(states: seq<Loop>, events: seq<Fd>, l: nat, k: nat, a: nat)
    requires Batch(states, events) && a <= l < k < |events| && a < |states| && Aims(states[0], events, l, k)
    ensures TimerUnder(states[a], events[l], states[0].reg[events[k]].hdl)
    ensures states[a].reg[events[l]] == states[0].reg[events[l]]
  {
    hide Inv, TimerFacts, Served;
    if a > 0 {
      var s, s', fd := states[a - 1], states[a], events[a - 1];
      var h, t := states[0].reg[events[k]].hdl, states[0].reg[events[l]].hdl;
      TimerWaits(states, events, l, k, a - 1);
      BatchState(states, events, a - 1);
      Raised(states[0], events, k);
      AimedIsLive(s, t, h);
      BatchHandles(states, events, a - 1, h);
      if fd in s.reg {
        TimerOfAnother(s, fd, t, h);
      }
      assert Served(s, fd, s');
      EventAndTimer(s, fd, s', events[l]);
    }
  }

  /** An event served before event `k` is that of the timer of the handle `k` was raised for exactly if it was
      when the batch was taken. */
  lemma HitIff(states: seq<Loop>, events: seq<Fd>, k: nat, a: nat)
    requires Batch(states, events) && a < k < |events| && a < |states| && events[k] in states[0].reg
    ensures TimerUnder(states[a], events[a], states[0].reg[events[k]].hdl) <==> Aims(states[0], events, a, k)
  {
    hide Inv, TimerFacts, Served, Removed;
    var h := states[0].reg[events[k]].hdl;
    if Aims(states[0], events, a, k) {
      TimerWaits(states, events, a, k, a);
    }
    if TimerUnder(states[a], events[a], h) {
      var t := states[a].reg[events[a]].hdl;
      BatchState(states, events, a);
      Raised(states[0], events, k);
      BatchAimers(states, events, a, t, h);
      TimerWasThere(states, events, a, t);
    }
  }

  /** A timer that is found under the descriptor of its event was there when the batch was taken. */
  lemma TimerWasThere(states: seq<Loop>, events: seq<Fd>, a: nat, t: Id)
    requires Batch(states, events) && a < |events| && a < |states|
    requires events[a] in states[a].reg && states[a].reg[events[a]].hdl == t
    requires t in states[0].objs && states[0].objs[t].kind.Timer?
    ensures events[a] in states[0].reg && states[0].reg[events[a]].hdl == t
  {
    hide Inv, TimerFacts, Served;
    BatchState(states, events, a);
    HandlerAt(states[a], events[a]);
    TimersAreAdded(states[0], t);
    BatchHandles(states, events, a, t);
    if !Registered(states[0], t) {
      BatchRemoved(states, events, 0, a, t);
      assert false;
    }
  }

  lemma TimersAreAdded(s: Loop, t: Id)
    requires Good(s) && t in s.objs && s.objs[t].kind.Timer?
    ensures t in s.added && t < s.next
  {
    hide TimerInv, LogInv, ChainInv, HistoryInv, DisconnectIsLast;
  }

  /** Some event before `a` is that of the timer of the handle event `k` was raised for. */
  ghost predicate AimedBefore(s: Loop, events: seq<Fd>, k: nat, a: nat)
    requires a <= |events| && k < |events|
  {
    exists l: nat :: l < a && Aims(s, events, l, k)
  }

  /** Up to its own event a handle keeps its entry until the event of its timer is served, and then it is
      removed. */
  lemma {:induction false} Delivery(states: seq<Loop>, events: seq<Fd>, k: nat, a: nat)
    requires Batch(states, events) && a <= k < |events| && a < |states| && events[k] in states[0].reg
    ensures var s, h, f := states[0], states[0].reg[events[k]].hdl, events[k];
            if AimedBefore(s, events, k, a) then
              && Removed(states[a], h)
              && exists l: nat :: l < a && Aims(s, events, l, k) && TimedOut(s.reg[events[l]].hdl, h) in states[a].log
            else
              && f in states[a].reg && states[a].reg[f] == s.reg[f]
              && h in s.objs && h in states[a].objs && (states[a].objs[h].kind.Timer? <==> s.objs[h].kind.Timer?)
  {
    hide Inv, TimerFacts, Served, Removed;
    Raised(states[0], events, k);
    if a > 0 {
      var s, s', fd := states[a - 1], states[a], events[a - 1];
      var h := states[0].reg[events[k]].hdl;
      Delivery(states, events, k, a - 1);
      BatchState(states, events, a - 1);
      assert Served(s, fd, s');
      if AimedBefore(states[0], events, k, a - 1) {
        EventKeepsRemoved(s, fd, s', h);
        EventKeepsLog(s, fd, s');
      } else {
        HitIff(states, events, k, a - 1);
        EventAndEntry(s, fd, s', events[k]);
        if Aims(states[0], events, a - 1, k) {
          TimerWaits(states, events, a - 1, k, a - 1);
        }
      }
    }
  }

  lemma {:induction false} LogStays(run: seq<Loop>, n: nat)
    requires IsService(run) && n < |run|
    ensures run[0].log <= run[n].log
  {
    hide Apply, Enabled;
    if n > 0 {
      var step := ServiceAt(run, n);
      StepKeepsLog(run[n - 1], step);
      LogStays(run, n - 1);
    }
  }

  lemma EventKeepsLog(s: Loop, fd: Fd, s': Loop)
    requires Good(s) && Served(s, fd, s')
    ensures s.log <= s'.log
  {
    hide Inv, TimerFacts, IsService;
    var run := ServiceRun(s, fd, s');
    LogStays(run, |run| - 1);
  }

  /** However a batch is served, an event reaches the handle it was raised for exactly when no earlier event of
      the batch is that of the handle's timer; otherwise the handle has timed out by then. */
  lemma DeliveredIff(states: seq<Loop>, events: seq<Fd>, k: nat)
    requires Serves(states, events) && Reachable(states[0]) && IsBatch(states[0], events)
    requires k < |events| && k < |states|
    ensures events[k] in states[0].reg
    ensures var h := states[0].reg[events[k]].hdl;
            && (events[k] in states[k].reg && states[k].reg[events[k]].hdl == h
                <==> !AimedBefore(states[0], events, k, k))
            && (AimedBefore(states[0], events, k, k) <==> exists t :: TimedOut(t, h) in states[k].log)
  {
    hide Inv, TimerFacts, Reachable, Served;
    ReachableIsGood(states[0]);
    Raised(states[0], events, k);
    Delivery(states, events, k, k);
    BatchState(states, events, k);
    var h := states[0].reg[events[k]].hdl;
    if events[k] in states[k].reg {
      HandlerAt(states[k], events[k]);
    }
    if t :| TimedOut(t, h) in states[k].log {
      TimedOutIsRemoved(states[k], t, h);
    }
  }

  // ---------------------------------------------------------------------------------------------------
  // Events that reach another handle
  // ---------------------------------------------------------------------------------------------------

  /** The event `m` may come to a handler that calls the program: it was raised for one, which is there still,
      or the program may have been called after its timer's event. */
  ghost predicate MayCall(s: Loop, events: seq<Fd>, m: nat)
    requires m < |events|
    decreases m, 1
  {
    && CallsProgram(s, events[m])
    && forall l: nat | l < m && Aims(s, events, l, m) :: CalledBetween(s, events, l, m)
  }

  /** Some event after `l` and before `m` may come to a handler that calls the program. */
  ghost predicate CalledBetween(s: Loop, events: seq<Fd>, l: nat, m: nat)
    requires m <= |events|
    decreases m, 0
  {
    exists i: nat :: l < i < m && MayCall(s, events, i)
  }

  /** Event `k` may reach another handle than it was raised for: the timer of the handle comes earlier in the
      batch, and after it an event whose handler may let the program reuse the number. */
  ghost predicate MayStray(s: Loop, events: seq<Fd>, k: nat)
    requires k < |events|
  {
    exists l: nat :: l < k && Aims(s, events, l, k) && CalledBetween(s, events, l, k)
  }

  /** A registered handle has one timer at most, so only one event is that of its timer. */
  lemma OneTimerAims(s: Loop, events: seq<Fd>, l: nat, l': nat, k: nat)
    requires Good(s) && IsBatch(s, events) && l < |events| && l' < |events| && k < |events|
    requires Aims(s, events, l, k) && Aims(s, events, l', k)
    ensures l == l'
  {
    hide TimerFacts, FdInv, LogInv, ChainInv, HistoryInv, DisconnectIsLast;
    Raised(s, events, k);
    Raised(s, events, l);
    Raised(s, events, l');
    var h := s.reg[events[k]].hdl;
    AimedIsLive(s, s.reg[events[l]].hdl, h);
    AimedIsLive(s, s.reg[events[l']].hdl, h);
  }

  lemma NoTimerIsAimedAt(s: Loop, events: seq<Fd>, l: nat, k: nat)
    requires Good(s) && IsBatch(s, events) && l < |events| && k < |events| && Aims(s, events, l, k)
    ensures CallsProgram(s, events[k])
  {
    hide FdInv, RegInv, LogInv, ChainInv, HistoryInv, DisconnectIsLast;
    Raised(s, events, k);
    assert IsAimed(s, s.reg[events[l]].hdl);
  }

  /** Another handle under the descriptor of event `k` before event `a`. */
  ghost predicate Strayed(s: Loop, s': Loop, fd: Fd) {
    fd in s.reg && fd in s'.reg && s'.reg[fd].hdl != s.reg[fd].hdl
  }

  /** If the number of event `k` is in other hands, the program was called since the timer's event. */
  lemma {:induction false} StrayedMeansCalled(states: seq<Loop>, events: seq<Fd>, k: nat, a: nat)
    requires Batch(states, events) && a <= k < |events| && a < |states| && Strayed(states[0], states[a], events[k])
    ensures exists l: nat :: l < a && Aims(states[0], events, l, k) && CalledBetween(states[0], events, l, a)
    decreases a, 0
  {
    hide Good, Served, Removed, CallsProgram, MayCall, CalledBetween, Aims;
    assert a > 0;
    var s, s', f := states[a - 1], states[a], events[k];
    BatchState(states, events, a - 1);
    assert Served(s, events[a - 1], s');
    if Strayed(states[0], s, f) {
      StrayedMeansCalled(states, events, k, a - 1);
      var l: nat :| l < a - 1 && Aims(states[0], events, l, k) && CalledBetween(states[0], events, l, a - 1);
      CalledLater(states[0], events, l, a - 1);
    } else {
      StraysByCall(states, events, k, a);
      var l: nat :| l < a - 1 && Aims(states[0], events, l, k);
      CallMeansMayCall(states, events, a - 1);
      CalledNow(states[0], events, l, a);
    }
  }

  lemma CalledLater(s: Loop, events: seq<Fd>, l: nat, m: nat)
    requires m < |events| && CalledBetween(s, events, l, m)
    ensures CalledBetween(s, events, l, m + 1)
  {
  }

  lemma CalledNow(s: Loop, events: seq<Fd>, l: nat, m: nat)
    requires l + 1 < m <= |events| && MayCall(s, events, m - 1)
    ensures CalledBetween(s, events, l, m)
  {
  }

  /** The number comes into other hands while a handler runs that calls the program. */
  lemma StraysByCall(states: seq<Loop>, events: seq<Fd>, k: nat, a: nat)
    requires Batch(states, events) && 0 < a <= k < |events| && a < |states|
    requires Strayed(states[0], states[a], events[k]) && !Strayed(states[0], states[a - 1], events[k])
    ensures CallsProgram(states[a - 1], events[a - 1])
    ensures exists l: nat :: l < a - 1 && Aims(states[0], events, l, k)
  {
    hide Good, Served, Removed, CallsProgram, Aims;
    var s, s', f := states[a - 1], states[a], events[k];
    BatchState(states, events, a - 1);
    assert Served(s, events[a - 1], s');
    Delivery(states, events, k, a - 1);
    if f in s.reg {
      EventAndEntry(s, events[a - 1], s', f);
      assert false;
    }
    if !CallsProgram(s, events[a - 1]) {
      EventRegisters(s, events[a - 1], s');
      assert false;
    }
  }

  lemma CallMeansMayCall(states: seq<Loop>, events: seq<Fd>, m: nat)
    requires Batch(states, events) && m < |events| && m < |states| && CallsProgram(states[m], events[m])
    ensures MayCall(states[0], events, m)
    decreases m, 1
  {
    hide Good, Served, Removed, Aims;
    var s := states[0];
    BatchIsGood(states, events);
    Raised(s, events, m);
    Delivery(states, events, m, m);
    if AimedBefore(s, events, m, m) {
      var l: nat :| l < m && Aims(s, events, l, m);
      NoTimerIsAimedAt(s, events, l, m);
      RemovedIsNotThere(states, events, m);
      StrayedMeansCalled(states, events, m, m);
      forall l': nat | l' < m && Aims(s, events, l', m)
        ensures CalledBetween(s, events, l', m)
      {
        var l'': nat :| l'' < m && Aims(s, events, l'', m) && CalledBetween(s, events, l'', m);
        OneTimerAims(s, events, l', l'', m);
      }
    }
  }

  lemma BatchIsGood(states: seq<Loop>, events: seq<Fd>)
    requires Batch(states, events)
    ensures Good(states[0]) && IsBatch(states[0], events)
  {
  }

  lemma RemovedIsNotThere(states: seq<Loop>, events: seq<Fd>, m: nat)
    requires Batch(states, events) && m < |events| && m < |states| && events[m] in states[0].reg
    requires Removed(states[m], states[0].reg[events[m]].hdl) && events[m] in states[m].reg
    ensures Strayed(states[0], states[m], events[m])
  {
    hide Inv, TimerFacts, Served;
    BatchState(states, events, m);
    HandlerAt(states[m], events[m]);
  }

  /** However a batch is served, event `k` reaches another handle only if it may stray. */
  lemma StrayedMeansMayStray(states: seq<Loop>, events: seq<Fd>, k: nat)
    requires Batch(states, events) && k < |events| && k < |states| && Strayed(states[0], states[k], events[k])
    ensures MayStray(states[0], events, k)
  {
    hide Good, Served, Removed, CallsProgram, MayCall, CalledBetween, Aims;
    StrayedMeansCalled(states, events, k, k);
  }
}
