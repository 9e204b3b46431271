/** The event loop as an object with mutable state: `add`, `epoll_add`, both `epoll_del`, the handlers of
    timers, clients and connections, and `start`. What the system calls answer is a parameter. Each method
    computes the transition the model names, and whole dispatches are runs of the model. */
module EventLoops {
  import opened LoopModel
  import opened LoopInvariant
  import opened LoopSteps
  import opened LoopObjects
  import opened LoopRegistry
  import opened LoopCreation
  import opened LoopTheorems
  import opened LoopProgram
  import opened LoopAnswers
  import opened StaleEvents

  // ---------------------------------------------------------------------------------------------------
  // What single steps need and come to, so that the methods can leave the definitions closed
  // ---------------------------------------------------------------------------------------------------

  lemma TriesNextIs(s: Loop, os: Os, a: Answers)
    requires Connecting(s) && EPOLL in s.objs && EPOLL < s.next
    ensures s.ctl.Run? && s.ctl.hdl in s.objs && s.objs[s.ctl.hdl].kind.Client?
    ensures var k := s.objs[s.ctl.hdl].kind;
            && k.chain in s.chains
            && var bare := NewAttempt(s, k.chain, s.chains[k.chain].len, k.pos + 1, os);
               && s.next in bare.objs && EPOLL in bare.objs
               && var s' := Add(bare, s.next, s.ctl.timer.Some? && s.ctl.timer.value in s.objs, a);
                  && s'.ctl == s.ctl
                  && TriesNext(s, os, a) == s'.(ctl := s.ctl.(pc := Closing))
  {
  }

  /** A further step of a run. */
  lemma StepTaken(s: Loop, s': Loop, step: Step)
    requires Inv(s') && Reach(s, s') && Enabled(s', step)
    ensures Inv(Apply(s', step)) && Reach(s, Apply(s', step))
  {
    hide Inv, Reach, Enabled, Apply;
    ReachStep(s, s', step);
    StepKeepsInv(s', step);
  }

  /** A further step of a handler. */
  lemma HandlerTakes(s: Loop, s': Loop, step: Step)
    requires Inv(s') && Leads(s, s') && Enabled(s', step) && !IsProgramStep(step) && s'.ctl.Run?
    ensures Inv(Apply(s', step)) && Leads(s, Apply(s', step))
  {
    hide Inv, Enabled, Apply, Leads;
    LeadsOn(s, s', step);
    StepKeepsInv(s', step);
  }

  lemma LeadsTransitive(s: Loop, s1: Loop, s2: Loop)
    requires Leads(s, s1) && Leads(s1, s2)
    ensures Leads(s, s2)
  {
    hide ServiceStep;
    var a :| IsService(a) && a[0] == s && a[|a| - 1] == s1;
    var b :| IsService(b) && b[0] == s1 && b[|b| - 1] == s2;
    var run, n := a + b[1..], |a| - 1;
    forall i, j | 0 <= i < j < |run| && j == i + 1
      ensures ServiceStep(run[i], run[j])
    {
      if j <= n {
        assert ServiceStep(a[i], a[j]);
      } else {
        assert run[i] == b[i - n] && run[j] == b[j - n];
        assert ServiceStep(b[i - n], b[j - n]);
      }
    }
    assert IsService(run) && run[|run| - 1] == s2;
  }

  lemma ServiceStepIsNext(s: Loop, s': Loop)
    requires ServiceStep(s, s')
    ensures Next(s, s')
  {
    hide Apply, Enabled;
    var step :| Serving(s, step) && s' == Apply(s, step);
    assert Enabled(s, step);
  }

  lemma LeadsIsReach(s: Loop, s': Loop)
    requires Leads(s, s')
    ensures Reach(s, s')
  {
    hide ServiceStep, Next;
    var run :| IsService(run) && run[0] == s && run[|run| - 1] == s';
    forall i, j | 0 <= i < j < |run| && j == i + 1
      ensures Next(run[i], run[j])
    {
      ServiceStepIsNext(run[i], run[j]);
    }
    assert IsRun(run);
  }

  lemma ProgramStaysInCallback(s: Loop, step: Step)
    requires IsProgramStep(step) && Enabled(s, step) && InCallback(s) && s.ctl.hdl < s.next
    ensures Serving(s, step) && InCallback(Apply(s, step))
    ensures Apply(s, step).ctl == s.ctl && s.next <= Apply(s, step).next
  {
    StepKeepsKind(s, step, s.ctl.hdl);
    StepGrows(s, step);
  }

  /** What the program does in a callback is part of serving the event. */
  lemma CallbackLeads(s: Loop, s': Loop)
    requires ByProgram(s, s') && InCallback(s) && Inv(s)
    ensures Leads(s, s')
  {
    hide Inv, ProgramStep, InCallback;
    InCallbackIsOld(s);
    var run: seq<Loop> :|
      && |run| > 0 && run[0] == s && run[|run| - 1] == s'
      && forall i, j {:trigger ProgramStep(run[i], run[j])} | 0 <= i < j < |run| && j == i + 1 ::
           ProgramStep(run[i], run[j]);
    ProgramRunLeads(run, |run| - 1);
  }

  lemma InCallbackIsOld(s: Loop)
    requires Inv(s) && InCallback(s)
    ensures s.ctl.Run? && s.ctl.hdl < s.next
  {
    hide TimerInv, LogInv, ChainInv, HistoryInv, DisconnectIsLast;
  }

  lemma {:induction false} ProgramRunLeads(run: seq<Loop>, n: nat)
    requires n < |run|
    requires forall i, j {:trigger ProgramStep(run[i], run[j])} | 0 <= i < j < |run| && j == i + 1 ::
               ProgramStep(run[i], run[j])
    requires InCallback(run[0]) && run[0].ctl.Run? && run[0].ctl.hdl < run[0].next
    ensures Leads(run[0], run[n]) && InCallback(run[n]) && run[n].ctl == run[0].ctl && run[0].next <= run[n].next
  {
    hide InCallback, Leads, Enabled, Apply;
    if n == 0 {
      LeadsSelf(run[0]);
    } else {
      ProgramRunLeads(run, n - 1);
      assert ProgramStep(run[n - 1], run[n]);
      var step :| IsProgramStep(step) && Enabled(run[n - 1], step) && run[n] == Apply(run[n - 1], step);
      ProgramStaysInCallback(run[n - 1], step);
      LeadsOn(run[0], run[n - 1], step);
    }
  }

  /** Only handlers that call the program get past `is_connected`. */
  lemma OpenCallsProgram(s: Loop)
    requires Inv(s) && s.ctl.Run? && !s.ctl.pc.Enter? && !s.ctl.pc.Leave?
    ensures InCallback(s)
  {
    hide FdInv, RegInv, TimerInv, LogInv, ChainInv, HistoryInv, DisconnectIsLast;
  }

  lemma StaysInCallback(s: Loop, s': Loop)
    requires InCallback(s) && s'.objs == s.objs && s'.ctl.Run? && s'.ctl.hdl == s.ctl.hdl
    ensures InCallback(s')
  {
  }

  lemma DestructionServes(s: Loop, id: Id)
    requires Enabled(s, Destroy(id))
    ensures Serving(s, Destroy(id))
  {
  }

  /** The step that enters a callback of `connect_next`. */
  function EnteringStep(so: SoError): Step {
    match so
    case CallFails => GetSockOptFails
    case NoError => Connects
    case ConnectFailed => LastFails
  }

  lemma EnteringIs(s: Loop, so: SoError)
    requires Connecting(s) && (so == ConnectFailed ==> LastAddress(s))
    ensures Enabled(s, EnteringStep(so))
    ensures s.ctl.Run? && s.ctl.hdl in s.objs && s.objs[s.ctl.hdl].kind.Client?
    ensures var h, c := s.ctl.hdl, s.objs[s.ctl.hdl].kind.chain;
            && c in s.chains
            && var s1 := if so == CallFails then Disable(s, s.ctl.timer) else s;
               Apply(s, EnteringStep(so))
               == s1.(chains := s.chains[c := s.chains[c].(done := true)],
                      log := s.log + [if so == NoError then Connected(c, h) else Failed(c, h)],
                      ctl := s.ctl.(pc := if so == NoError then InConnect else InFail(so == ConnectFailed)))
  {
  }

  /** What the log says about it. */
  ghost function Conclusion(so: SoError, s: Loop): Event
    requires s.ctl.Run? && s.ctl.hdl in s.objs && s.objs[s.ctl.hdl].kind.Client?
  {
    var c := CurrentKind(s).chain;
    if so == NoError then Connected(c, s.ctl.hdl) else Failed(c, s.ctl.hdl)
  }

  lemma Entered(s: Loop, so: SoError)
    requires Connecting(s) && Enabled(s, EnteringStep(so))
    ensures var s' := Apply(s, EnteringStep(so));
            && s'.log == s.log + [Conclusion(so, s)] && Conclusion(so, s) in s'.log
            && s'.ctl == s.ctl.(pc := if so == NoError then InConnect else InFail(so == ConnectFailed))
            && CurrentKind(s).chain in s.chains
            && s'.chains == s.chains[CurrentKind(s).chain := s.chains[CurrentKind(s).chain].(done := true)]
  {
  }

  lemma Left(s: Loop, step: Step)
    requires Enabled(s, step) && (step == ConnectReturns || step == FailReturns)
    ensures var s' := Apply(s, step);
            && s'.log == s.log && s'.chains == s.chains
            && s'.ctl == s.ctl.(pc := if step == ConnectReturns then Open else Closing)
            && (step == ConnectReturns ==> IsConnected(s', s.ctl.hdl))
  {
  }

  /** A handler inside a callback is of a live client connection. */
  lemma MayReturn(s: Loop)
    requires Inv(s) && s.ctl.Run? && (s.ctl.pc == InConnect || s.ctl.pc.InFail?)
    ensures s.ctl.hdl in s.objs && s.objs[s.ctl.hdl].kind.Client?
    ensures Enabled(s, if s.ctl.pc == InConnect then ConnectReturns else FailReturns)
  {
  }

  lemma CanDecide(s: Loop, so: SoError, os: Os, a: Answers)
    requires Connecting(s) && EPOLL in s.objs
    requires OsCan(s, os) && !os.LostFd? && OsCan(Create(s, Plain, os), a.os)
    ensures if so == ConnectFailed && !LastAddress(s)
            then Enabled(s, TryNext(os, a)) && Apply(s, TryNext(os, a)) == TriesNext(s, os, a)
                 && TriesNext(s, os, a).ctl == s.ctl.(pc := Closing)
            else Enabled(s, EnteringStep(so)) && !(so == ConnectFailed && Enabled(s, TryNext(os, a)))
  {
  }

  lemma CanEnter(s: Loop)
    requires Inv(s) && InHandler(s, Enter) && !s.objs[s.ctl.hdl].kind.Timer?
    ensures Enabled(s, Pass) && Apply(s, Pass) == Goto(s, Open)
    ensures s.objs[s.ctl.hdl].kind.Client? && !s.objs[s.ctl.hdl].kind.connected ==> Connecting(s)
  {
  }

  /** The handler's steps are possible, and what they come to. */
  lemma HandlerExists(s: Loop)
    requires Inv(s) && s.ctl.Run?
    ensures s.ctl.hdl in s.objs
    ensures s.ctl.pc == Open ==>
      && Enabled(s, Deliver) && Apply(s, Deliver) == Emit(s, Message(s.ctl.hdl))
      && Enabled(s, Serve) && Apply(s, Serve) == Goto(s, Leave(true))
      && Enabled(s, HangUp) && Apply(s, HangUp) == Goto(s, Closing)
    ensures s.ctl.pc == Closing ==> forall callback ::
      && Enabled(s, Close(callback))
      && Apply(s, Close(callback)) == Goto(if callback then Emit(s, Disconnected(s.ctl.hdl)) else s, Leave(false))
    ensures s.ctl.pc.Leave? ==>
      && Enabled(s, Return)
      && Apply(s, Return) == (if s.ctl.pc.keep then s else EpollDel(s, s.ctl.fd)).(ctl := Idle)
  {
    hide FdInv, RegInv, TimerInv, LogInv, ChainInv, HistoryInv, DisconnectIsLast, EpollDel;
  }

  lemma TimerCanFire(s: Loop)
    requires Inv(s) && InHandler(s, Enter) && s.objs[s.ctl.hdl].kind.Timer?
    ensures Enabled(s, Fire) && Apply(s, Fire).ctl == s.ctl.(pc := Leave(false))
    ensures match s.objs[s.ctl.hdl].kind.closure
            case None => Apply(s, Fire) == Goto(s, Leave(false))
            case Some(h) => h in s.objs && RunClosure(s, s.ctl.hdl, h).ctl == s.ctl &&
                            Apply(s, Fire) == Goto(RunClosure(s, s.ctl.hdl, h), Leave(false))
  {
    hide FdInv, RegInv, LogInv, ChainInv, HistoryInv, DisconnectIsLast;
    assert s.objs[s.ctl.hdl].kind.closure.Some? ==> IsAimed(s, s.ctl.hdl);
  }

  lemma DestroyIs(s: Loop, id: Id)
    requires id in s.objs && !Referenced(s, id)
    ensures Enabled(s, Destroy(id)) && Apply(s, Destroy(id)) == Destroyed(s, id)
  {
  }

  /** The lookup of an event. */
  lemma LooksUp(s: Loop, fd: Fd)
    requires Inv(s) && s.ctl.Idle?
    ensures Enabled(s, LoopModel.Dispatch(fd)) && Inv(Apply(s, LoopModel.Dispatch(fd)))
    ensures Apply(s, LoopModel.Dispatch(fd))
            == if fd in s.reg then s.(ctl := Run(fd, s.reg[fd].hdl, s.reg[fd].timer, Enter)) else s
  {
    StepKeepsInv(s, LoopModel.Dispatch(fd));
  }

  lemma DispatchReaches(s: Loop, fd: Fd, s': Loop)
    requires s.ctl.Idle? && Leads(Apply(s, LoopModel.Dispatch(fd)), s')
    ensures Reach(s, s') && (s'.ctl.Idle? ==> Served(s, fd, s'))
  {
    hide Apply, Leads;
    var s1 := Apply(s, LoopModel.Dispatch(fd));
    ReachSelf(s);
    ReachStep(s, s, LoopModel.Dispatch(fd));
    LeadsIsReach(s1, s');
    ReachTransitive(s, s1, s');
  }

  lemma EmptyRegistry(s: Loop)
    requires Inv(s)
    ensures s.reg == map[] ==> s.interest == {}
  {
  }

  lemma OfferedIsNotRegistered(s: Loop, id: Id)
    ensures var s' := s.(added := s.added + {id});
            Offered(s, id) ==> !Registered(s', id) && Offered(s', id)
  {
  }

  lemma OfferedThroughTimer(s: Loop, id: Id, a: Answers)
    requires id in s.objs
    ensures Offered(s, id) && OsCan(s, a.os) && id != s.next ==>
              Offered(LoopModel.EpollAdd(Arm(s, id, a.os), s.next, None, a.timerWilling), id)
  {
  }

  lemma OfferedIsRegistered(s: Loop, id: Id, timer: Option<Id>, willing: bool)
    requires id in s.objs
    ensures var s' := LoopModel.EpollAdd(s, id, timer, willing);
            Offered(s, id) ==> (Registered(s', id) <==> s'.interest != s.interest)
  {
    if Offered(s, id) && s.objs[id].fd.Some? {
      assert s.objs[id].fd.value !in s.interest;
    }
  }

  // ---------------------------------------------------------------------------------------------------
  // What a handler said
  // ---------------------------------------------------------------------------------------------------

  lemma TriesNextIsAside(s: Loop, os: Os, a: Answers)
    requires Inv(s) && Enabled(s, TryNext(os, a))
    ensures var s', k := Apply(s, TryNext(os, a)), s.objs[s.ctl.hdl].kind;
            && s' == TriesNext(s, os, a)
            && k.chain in s.chains
            && s'.chains == s.chains[k.chain := Attempts(s.chains[k.chain].len, k.pos + 2, s.next, false)]
            && s'.log == s.log + [Attempt(k.chain, k.pos + 1)] + TimeoutOfNext(s, s.ctl.timer)
            && SameVoices(s, s') && k.pos + 1 < s.chains[k.chain].len
  {
    hide Inv, Add, SameVoices;
    InvMeansOld(s);
    TryNextLogsAttempt(s, os, a);
    TriesNextIs(s, os, a);
    var k, timed := s.objs[s.ctl.hdl].kind, s.ctl.timer.Some? && s.ctl.timer.value in s.objs;
    var bare := NewAttempt(s, k.chain, s.chains[k.chain].len, k.pos + 1, os);
    SilentSnoc(s, bare, Attempt(k.chain, k.pos + 1));
    AddIsAside(bare, s.next, timed, a);
    VoicesAdd(s, bare, Add(bare, s.next, timed, a));
    VoicesOfLog(s, Add(bare, s.next, timed, a), Apply(s, TryNext(os, a)));
  }

  lemma VoicesOfLog(s: Loop, s1: Loop, s2: Loop)
    requires SameVoices(s, s1) && s2.log == s1.log
    ensures SameVoices(s, s2)
  {
  }

  lemma UnaimedIs(s: Loop, h: Id)
    ensures Unaimed(s, h) <==> forall t | t in s.objs :: s.objs[t].kind != Timer(Some(h))
  {
  }

  /** An attempt that is refused gives up at the last address. */
  lemma RefusedAt(s: Loop)
    requires Inv(s) && Connecting(s)
    ensures var k := s.objs[s.ctl.hdl].kind;
            && k.chain in s.chains && k.pos + 1 == |Tried(s.log, k.chain)| == s.chains[k.chain].tried
            && (LastAddress(s) <==> |Tried(s.log, k.chain)| == s.chains[k.chain].len)
            && s.chains[k.chain].tried <= s.chains[k.chain].len && !s.chains[k.chain].done
  {
    hide Inv;
    PositionOfAttempt(s);
    ActiveIsCurrent(s);
  }

  lemma NextConnects(s: Loop, os: Os, a: Answers)
    requires Inv(s) && Enabled(s, TryNext(os, a))
    ensures ConnectsNext(s, ConnectFailed, false, Apply(s, TryNext(os, a)))
    ensures Apply(s, TryNext(os, a)) == TriesNext(s, os, a)
  {
    hide Inv, Decides, SameVoices, TriesNext;
    RefusedAt(s);
    TriesNextIsAside(s, os, a);
    StepKeepsInv(s, TryNext(os, a));
    GoesOn(s, s.ctl.hdl, s.objs[s.ctl.hdl].kind.chain, s.ctl.timer, Apply(s, TryNext(os, a)));
    TriesNextMoves(s, os, a);
  }

  lemma TriesNextMoves(s: Loop, os: Os, a: Answers)
    requires Connecting(s) && EPOLL in s.objs
    ensures TriesNext(s, os, a).ctl == s.ctl.(pc := Closing)
  {
  }

  /** connect_next through its callbacks. */
  lemma CallbackConnects(s: Loop, so: SoError, s1: Loop, s2: Loop, s3: Loop)
    requires Inv(s) && Connecting(s) && Enabled(s, EnteringStep(so)) && s1 == Apply(s, EnteringStep(so))
    requires Inv(s1) && ByProgram(s1, s2) && Leads(s1, s2) && s2.ctl == s1.ctl && Inv(s2)
    requires var leaving := if so == NoError then ConnectReturns else FailReturns;
             Enabled(s2, leaving) && s3 == Apply(s2, leaving) && Inv(s3)
    ensures ConnectsNext(s, so, so == NoError, s3)
  {
    hide Inv, Enabled, Apply, ByProgram, Leads, Decides, SameVoices, KeepsChains, Unaimed;
    var leaving, h := if so == NoError then ConnectReturns else FailReturns, s.ctl.hdl;
    EntersWith(s, so);
    ProgramIsAside(s1, s2);
    Left(s2, leaving);
    Decided(s, h, so, s1, s2, s3);
    if so == CallFails {
      Unaims(s, GetSockOptFails);
      UnaimedIs(s1, h);
      StaysUnaimed(s1, s2, h);
      ReturnKeepsUnaimed(s2, h);
    } else if so == ConnectFailed {
      Unaims(s2, FailReturns);
      UnaimedIs(s3, h);
    }
  }

  /** The step into a callback concludes the chain and speaks for nobody. */
  lemma EntersWith(s: Loop, so: SoError)
    requires Inv(s) && Connecting(s) && Enabled(s, EnteringStep(so))
    ensures so == ConnectFailed ==> LastAddress(s)
    ensures s.ctl.Run? && s.ctl.hdl in s.objs && s.objs[s.ctl.hdl].kind.Client? && s.ctl.hdl in s.added
    ensures var s', c := Apply(s, EnteringStep(so)), s.objs[s.ctl.hdl].kind.chain;
            && c in s.chains && s.chains.Keys <= s'.chains.Keys
            && s'.ctl == s.ctl.(pc := if so == NoError then InConnect else InFail(so == ConnectFailed))
            && s'.added == s.added
            && SameVoices(s, s') && Decides(s, s.ctl.hdl, c, s.ctl.timer, so, s')
  {
    hide Inv, Decides, SameVoices;
    PositionOfAttempt(s);
    ActiveIsCurrent(s);
    Entered(s, so);
    EnteringIs(s, so);
    StepKeepsInv(s, EnteringStep(so));
    SilentSnoc(s, Apply(s, EnteringStep(so)), Conclusion(so, s));
    Concluded(s, s.ctl.hdl, s.objs[s.ctl.hdl].kind.chain, s.ctl.timer, so, Apply(s, EnteringStep(so)));
  }

  /** It stays decided in the callback and behind it. */
  lemma Decided(s: Loop, h: Id, so: SoError, s1: Loop, s2: Loop, s3: Loop)
    requires h in s.objs && s.objs[h].kind.Client? && s.objs[h].kind.chain in s.chains && s.ctl.Run?
    requires Decides(s, h, s.objs[h].kind.chain, s.ctl.timer, so, s1) && SameVoices(s, s1)
    requires s.chains.Keys <= s1.chains.Keys
    requires Inv(s1) && Inv(s3) && KeepsChains(s1, s2) && SameVoices(s1, s2)
    requires s3.log == s2.log && s3.chains == s2.chains
    ensures Decides(s, h, s.objs[h].kind.chain, s.ctl.timer, so, s3) && SameVoices(s, s3)
    ensures s.chains.Keys <= s3.chains.Keys
  {
    hide Inv, Decides;
    MovesAside(s1, s2, s3);
    DecidedLater(s, h, s.objs[h].kind.chain, s.ctl.timer, so, s1, s3);
    VoicesAdd(s, s1, s3);
  }

  lemma MovesAside(s1: Loop, s2: Loop, s3: Loop)
    requires KeepsChains(s1, s2) && SameVoices(s1, s2) && s3.log == s2.log && s3.chains == s2.chains
    ensures KeepsChains(s1, s3) && SameVoices(s1, s3) && s1.chains.Keys <= s3.chains.Keys
  {
  }

  lemma VoicesAdd(s: Loop, s1: Loop, s2: Loop)
    requires SameVoices(s, s1) && SameVoices(s1, s2)
    ensures SameVoices(s, s2)
  {
  }

  /** Timers come to be aimed at handles that were not added before only. */
  lemma StaysUnaimed(s: Loop, s': Loop, h: Id)
    requires Inv(s) && Leads(s, s') && h in s.added && Unaimed(s, h)
    ensures Unaimed(s', h) && h in s'.added
  {
    hide Inv, ServiceStep;
    var run :| IsService(run) && run[0] == s && run[|run| - 1] == s';
    ServiceStaysUnaimed(run, |run| - 1, h);
  }

  lemma {:induction false} ServiceStaysUnaimed(run: seq<Loop>, n: nat, h: Id)
    requires IsService(run) && n < |run| && Inv(run[0]) && h in run[0].added && Unaimed(run[0], h)
    ensures Inv(run[n]) && h in run[n].added && Unaimed(run[n], h)
  {
    hide Inv, Enabled, Apply, IsService;
    if n > 0 {
      ServiceStaysUnaimed(run, n - 1, h);
      var step := ServiceAt(run, n);
      StepKeepsInv(run[n - 1], step);
      StepGrows(run[n - 1], step);
      forall t | t in run[n].objs
        ensures run[n].objs[t].kind != Timer(Some(h))
      {
        if run[n].objs[t].kind == Timer(Some(h)) {
          StepKeepsAimers(run[n - 1], step, t, h);
          assert false;
        }
      }
    }
  }

  lemma ReturnKeepsUnaimed(s: Loop, h: Id)
    requires Inv(s) && Enabled(s, FailReturns) && h in s.added && Unaimed(s, h)
    ensures Unaimed(Apply(s, FailReturns), h)
  {
    hide Inv, Enabled, Apply;
    forall t | t in Apply(s, FailReturns).objs
      ensures Apply(s, FailReturns).objs[t].kind != Timer(Some(h))
    {
      if Apply(s, FailReturns).objs[t].kind == Timer(Some(h)) {
        StepKeepsAimers(s, FailReturns, t, h);
        assert false;
      }
    }
  }

  lemma TargetWasAddedAt(s: Loop)
    requires Inv(s) && s.ctl.Run?
    ensures s.ctl.hdl in s.added
  {
    DispatchedIsRegistered(s);
  }

  /** What the timer says when it fires. */
  lemma FireSays(s: Loop)
    requires Inv(s) && Enabled(s, Fire)
    ensures var closure := s.objs[s.ctl.hdl].kind.closure;
            Apply(s, Fire).log == s.log + if closure.Some? && Registered(s, closure.value)
                                          then [TimedOut(s.ctl.hdl, closure.value)] else []
  {
    hide TimerInv, LogInv, ChainInv, HistoryInv, DisconnectIsLast;
    var closure := s.objs[s.ctl.hdl].kind.closure;
    if closure.Some? {
      ClosureRemovesTarget(s, closure.value);
      if Registered(s, closure.value) {
        var fd := s.objs[closure.value].fd.value;
        assert fd in s.reg && fd !in EpollDelHandle(s, closure.value).reg;
      }
    }
  }

  lemma ConnectAnswers(s: Loop, so: SoError, connected: bool, s': Loop)
    requires ConnectsNext(s, so, connected, s')
    ensures connected <==> so == NoError
  {
  }

  lemma FoundAt(s: Loop, r: Report, connected: bool, s1: Loop)
    requires FindsConnected(s, r, connected, s1)
    ensures s1.ctl.Run? && s1.ctl == s.ctl.(pc := if connected then Open else Closing)
  {
  }

  /** A timer's handler. */
  lemma TimerHandles(s: Loop, r: Report)
    requires Inv(s) && Enabled(s, Fire)
    ensures Handles(s, r, false, Apply(s, Fire))
  {
    hide Inv;
    FireSays(s);
    FireMoves(s);
  }

  lemma FireMoves(s: Loop)
    requires Enabled(s, Fire)
    ensures Apply(s, Fire).ctl == s.ctl.(pc := Leave(false))
  {
  }

  /** The handler of a connection: `is_connected` until `s1`, then the conversation. */
  lemma Handled(s: Loop, r: Report, connected: bool, s1: Loop, keep: bool, s2: Loop)
    requires Inv(s) && Inv(s1) && Inv(s2) && InHandler(s, Enter) && !s.objs[s.ctl.hdl].kind.Timer?
    requires FindsConnected(s, r, connected, s1) && Converses(s1, r.talk, keep, s2) && Leads(s1, s2)
    ensures Handles(s, r, keep, s2)
  {
    hide Inv, Decides, Leads, Unaimed;
    var h := s.ctl.hdl;
    if Asks(s.objs[h].kind, r.writable) {
      DecidedLater(s, h, s.objs[h].kind.chain, s.ctl.timer, r.so, s1, s2);
      TargetWasAddedAt(s1);
      if GivesUp(s, h, r) {
        StaysUnaimed(s1, s2, h);
      }
    } else {
      KeptHistories(s1, s2);
    }
  }

  lemma HandledAt(s: Loop, r: Report, keep: bool, s': Loop)
    requires Handles(s, r, keep, s')
    ensures s'.ctl.Run? && s'.ctl == s.ctl.(pc := Leave(keep))
  {
  }

  lemma NoneServed(s: Loop, r: Report, s': Loop)
    requires r.fd !in s.reg && s' == s.(objs := s'.objs, open := s'.open, closes := s'.closes)
    ensures ServedAs(s, r, s')
  {
  }

  /** The end of the dispatch and the destructors add nothing to what the handler said. */
  lemma HandledStill(s0: Loop, s1: Loop, r: Report, keep: bool, s2: Loop, s4: Loop)
    requires Inv(s2) && r.fd in s0.reg && s1 == s0.(ctl := Run(r.fd, s0.reg[r.fd].hdl, s0.reg[r.fd].timer, Enter))
    requires Handles(s1, r, keep, s2) && Finished(s2, keep, s4)
    ensures ServedAs(s0, r, s4)
    ensures if keep then r.fd in s4.reg && s4.reg[r.fd] == s0.reg[r.fd] else r.fd !in s4.reg
  {
    hide Inv, Unaimed, Decides, Voices, Referenced;
    var h := s0.reg[r.fd].hdl;
    DispatchedIsRegistered(s2);
    HistoriesMove(s0, s1, h, r, keep, s2, s4);
    if GivesUp(s0, h, r) {
      GaveUpIsGone(s2, s4, h);
    }
  }

  lemma HistoriesMove(s0: Loop, s1: Loop, h: Id, r: Report, keep: bool, s2: Loop, s4: Loop)
    requires h in s0.objs && s1 == s0.(ctl := s1.ctl) && s1.ctl.Run? && s4.log == s2.log
    requires HandledAs(s1, h, s1.ctl.timer, r, keep, s2)
    ensures HandledAs(s0, h, s1.ctl.timer, r, keep, s4)
    ensures GivesUp(s0, h, r) <==> GivesUp(s1, h, r)
    ensures GivesUp(s0, h, r) ==> !keep
  {
    hide Decides;
    if Asks(s0.objs[h].kind, r.writable) {
      DecidesMoved(s1, h, s0.objs[h].kind.chain, s1.ctl.timer, r.so, s2, s0, s4);
    }
  }

  /** The dispatch that stood at `s` has ended. */
  ghost predicate Finished(s: Loop, keep: bool, s': Loop) {
    && s.ctl.Run?
    && s' == s.(interest := s'.interest, reg := s'.reg, ctl := Idle,
                objs := s'.objs, open := s'.open, closes := s'.closes)
    && s'.reg == (if keep then s.reg else s.reg - {s.ctl.fd})
    && (forall id | id in s'.objs :: id in s.objs && s'.objs[id] == s.objs[id])
    && (forall id | id in s'.objs :: Referenced(s', id))
  }

  /** An attempt that gave up is destroyed with its dispatch, unless the program refers to it. */
  lemma GaveUpIsGone(s2: Loop, s4: Loop, h: Id)
    requires Inv(s2) && s2.ctl.Run? && s2.ctl.hdl == h && Unaimed(s2, h) && Finished(s2, false, s4)
    ensures h in s4.objs ==> h in s4.ext
  {
    hide TimerInv, LogInv, ChainInv, HistoryInv, DisconnectIsLast;
    DispatchedIsRegistered(s2);
    if h in s4.objs {
      assert Referenced(s4, h);
      if fd :| fd in s4.reg && s4.reg[fd].hdl == h {
        HandlerAt(s2, fd);
        assert false;
      }
    }
  }

  // ---------------------------------------------------------------------------------------------------
  // Batches and rounds
  // ---------------------------------------------------------------------------------------------------

  /** The descriptors of a batch. */
  function Descriptors(batch: seq<Report>): (fds: seq<Fd>)
    ensures |fds| == |batch| && forall i | 0 <= i < |batch| :: fds[i] == batch[i].fd
  {
    seq(|batch|, i requires 0 <= i < |batch| => batch[i].fd)
  }

  /** epoll_wait can return `batch`. */
  predicate CanReturn(s: Loop, batch: seq<Report>) {
    && s.ctl.Idle? && |batch| <= MAX_EVENTS
    && (forall r | r in batch :: r.fd in s.interest)
    && (forall k, l | 0 <= k < l < |batch| :: batch[k].fd != batch[l].fd)
  }

  lemma CanReturnIs(s: Loop, batch: seq<Report>)
    ensures CanReturn(s, batch) <==> IsBatch(s, Descriptors(batch))
  {
    forall k | 0 <= k < |batch|
      ensures Descriptors(batch)[k] == batch[k].fd && batch[k] in batch
    {
    }
  }

  /** `states` are those of a service of the first `n` events of the batch, each served as it demands. */
  ghost predicate ServesSome(s: Loop, batch: seq<Report>, states: seq<Loop>, n: nat) {
    && n <= |batch| && |states| == n + 1 && states[0] == s && Serves(states, Descriptors(batch))
    && forall i, j {:trigger ServedAs(states[i], batch[i], states[j])} | 0 <= i < j < |states| && j == i + 1 ::
         ServedAs(states[i], batch[i], states[j])
  }

  ghost predicate ServesFully(s: Loop, batch: seq<Report>, states: seq<Loop>) {
    ServesSome(s, batch, states, |batch|)
  }

  lemma ServesSomeMore(s: Loop, batch: seq<Report>, states: seq<Loop>, n: nat, s': Loop)
    requires ServesSome(s, batch, states, n) && n < |batch|
    requires Served(states[n], batch[n].fd, s') && ServedAs(states[n], batch[n], s')
    ensures ServesSome(s, batch, states + [s'], n + 1)
  {
    hide Served, ServedAs;
    ServesOneMore(states, Descriptors(batch), s');
    var longer := states + [s'];
    forall i, j | 0 <= i < j < |longer| && j == i + 1
      ensures ServedAs(longer[i], batch[i], longer[j])
    {
      if j < |states| {
        assert ServedAs(states[i], batch[i], states[j]);
      }
    }
  }

  /** One round of `start`. */
  ghost predicate Round(s: Loop, batch: seq<Report>, states: seq<Loop>) {
    if CanReturn(s, batch) then ServesFully(s, batch, states) else states == [s]
  }

  lemma ServesNone(s: Loop, batch: seq<Report>)
    ensures ServesSome(s, batch, [s], 0)
  {
  }

  lemma ServesFullyIs(s: Loop, batch: seq<Report>, states: seq<Loop>)
    requires if CanReturn(s, batch) then ServesFully(s, batch, states) else states == [s]
    ensures Round(s, batch, states) && |states| > 0 && states[0] == s
  {
  }

  ghost function EndOfRounds(s: Loop, rounds: seq<seq<Loop>>): Loop
    requires forall i | 0 <= i < |rounds| :: |rounds[i]| > 0
  {
    if rounds == [] then s else rounds[|rounds| - 1][|rounds[|rounds| - 1]| - 1]
  }

  /** The rounds of `start` from `s`, one for each batch, each from where the one before ended. */
  ghost predicate InRounds(s: Loop, batches: seq<seq<Report>>, rounds: seq<seq<Loop>>) {
    && |rounds| <= |batches|
    && (forall i | 0 <= i < |rounds| :: |rounds[i]| > 0)
    && forall i | 0 <= i < |rounds| :: Round(EndOfRounds(s, rounds[..i]), batches[i], rounds[i])
  }

  /** `start` has come from `s` to `s'` by these rounds, each begun with something registered. */
  ghost predicate Started(s: Loop, batches: seq<seq<Report>>, rounds: seq<seq<Loop>>, s': Loop) {
    && InRounds(s, batches, rounds) && EndOfRounds(s, rounds) == s'
    && forall i | 0 <= i < |rounds| :: rounds[i][0].reg != map[]
  }

  lemma StartedNone(s: Loop, batches: seq<seq<Report>>)
    ensures Started(s, batches, [], s)
  {
  }

  lemma StartedMore(s: Loop, batches: seq<seq<Report>>, rounds: seq<seq<Loop>>, s1: Loop, states: seq<Loop>)
    requires Started(s, batches, rounds, s1) && |rounds| < |batches| && s1.reg != map[]
    requires |states| > 0 && states[0] == s1 && Round(s1, batches[|rounds|], states)
    ensures Started(s, batches, rounds + [states], states[|states| - 1])
  {
    hide Round;
    var longer := rounds + [states];
    forall i | 0 <= i < |longer|
      ensures Round(EndOfRounds(s, longer[..i]), batches[i], longer[i])
    {
      assert longer[..i] == rounds[..i];
      assert rounds[..|rounds|] == rounds;
    }
  }

  /** `id` has not been registered: its descriptor is open and unknown to the loop and the kernel's list. */
  predicate Offered(s: Loop, id: Id) {
    && id in s.objs
    && (s.objs[id].fd.Some? ==>
          var fd := s.objs[id].fd.value; fd !in s.reg && fd !in s.interest && fd in s.open)
  }

  class EventLoop {
    var objs: map<Id, Handle>
    var reg: map<Fd, Entry>
    var interest: set<Fd>
    var open: set<Fd>
    var leaked: set<Fd>
    var ext: set<Id>
    var added: set<Id>
    var opens: nat
    var closes: nat
    var next: Id
    var nextChain: Chain
    var ctl: Control
    var chains: map<Chain, Attempts>
    var log: seq<Event>

    function View(): Loop
      reads this
    {
      Loop(objs, reg, interest, open, leaked, ext, added, opens, closes, next, nextChain, ctl, chains, log)
    }

    constructor (epfd: Option<Fd>)
      ensures View() == Init(epfd) && Inv(View())
    {
      objs, reg, interest := map[EPOLL := Handle(epfd, Plain)], map[], {};
      open := if epfd.Some? then {epfd.value} else {};
      leaked, ext, added := {}, {EPOLL}, {EPOLL};
      opens, closes := if epfd.Some? then 1 else 0, 0;
      next, nextChain, ctl, chains, log := 1, 0, Idle, map[], [];
      new;
      InitInv(epfd);
    }

    // -------------------------------------------------------------------------------------------------
    // Handles and the registry
    // -------------------------------------------------------------------------------------------------

    /** The constructor of a handle. */
    method Construct(kind: Kind, os: Os) returns (id: Id)
      modifies this`objs, this`next, this`open, this`leaked, this`opens
      ensures id == old(next) && View() == Create(old(View()), kind, os)
    {
      id := next;
      next := next + 1;
      match os {
        case NoFd =>
          objs := objs[id := Handle(None, kind)];
        case LostFd(fd) =>
          open, leaked := open + {fd}, leaked + {fd};
          objs := objs[id := Handle(None, kind)];
        case NewFd(fd) =>
          open := open + {fd};
          opens := opens + 1;
          objs := objs[id := Handle(Some(fd), kind)];
      }
    }

    method EpollAdd(id: Id, timer: Option<Id>, willing: bool) returns (ok: bool)
      requires id in objs
      modifies this`interest, this`reg
      ensures View() == LoopModel.EpollAdd(old(View()), id, timer, willing)
      ensures ok <==> interest != old(interest)
      ensures ok ==> objs[id].fd.Some? && interest == old(interest) + {objs[id].fd.value}
    {
      if objs[id].fd.None? {
        return false;
      }
      var fd := objs[id].fd.value;
      if !willing || fd in interest || fd !in open {
        return false;
      }
      interest := interest + {fd};
      if fd !in reg {
        reg := reg[fd := Entry(id, timer)];
      }
      ok := true;
    }

    /** epoll_del of the entry of a descriptor. */
    method EpollDelEntry(fd: Fd) returns (ok: bool)
      modifies this`interest, this`reg
      ensures View() == EpollDel(old(View()), fd)
      ensures ok == (fd in old(interest))
    {
      if fd !in interest {
        return false;
      }
      interest := interest - {fd};
      reg := reg - {fd};
      ok := true;
    }

    /** epoll_del of a handle. */
    method EpollDelHdl(id: Id) returns (ok: bool)
      requires id in objs
      modifies this`interest, this`reg
      ensures View() == EpollDelHandle(old(View()), id)
      ensures ok <==> reg != old(reg)
    {
      if objs[id].fd.None? {
        return false;
      }
      var fd := objs[id].fd.value;
      if fd !in reg {
        return false;
      }
      ok := EpollDelEntry(fd);
      assert ok ==> fd in old(reg) && fd !in reg;
    }

    /** The public `add`. A timer that cannot be registered is only warned about. */
    method AddHandle(id: Id, timed: bool, a: Answers) returns (ok: bool)
      requires id in objs && EPOLL in objs
      modifies this`objs, this`next, this`open, this`leaked, this`opens, this`interest, this`reg, this`added, this`log
      ensures View() == Add(old(View()), id, timed, a)
      ensures ok ==> id in objs && objs[id].fd.Some? && objs[id].fd.value in interest
      ensures !timed ==> (ok <==> interest != old(interest))
      ensures old(Offered(View(), id)) && old(OsCan(View(), a.os)) && id != old(next) ==>
                (ok <==> Registered(View(), id))
    {
      hide Registered, Offered;
      OfferedIsNotRegistered(View(), id);
      added := added + {id};
      if objs[EPOLL].fd.None? {
        return false;
      }
      var timer: Option<Id> := None;
      if timed {
        added := added + {next};
        log := log + [Armed(next, id)];
        assert added == old(added) + {id, next};
        var t := Construct(Timer(Some(id)), a.os);
        assert View() == Arm(old(View()), id, a.os);
        var _ := EpollAdd(t, None, a.timerWilling);
        timer := Some(t);
        OfferedThroughTimer(old(View()), id, a);
      }
      ghost var s := View();
      ok := EpollAdd(id, timer, a.willing);
      OfferedIsRegistered(s, id, timer, a.willing);
    }

    /** Timer::disable, on the timer a weak reference leads to. */
    method DisableTimer(timer: Option<Id>)
      modifies this`objs
      ensures View() == Disable(old(View()), timer)
    {
      if timer.Some? && timer.value in objs && objs[timer.value].kind.Timer? {
        objs := objs[timer.value := objs[timer.value].(kind := Timer(None))];
      }
    }

    // -------------------------------------------------------------------------------------------------
    // The program and the run-time system
    // -------------------------------------------------------------------------------------------------

    /** One thing the program does. */
    method Perform(step: Step)
      requires IsProgramStep(step) && Enabled(View(), step)
      modifies this
      ensures View() == Apply(old(View()), step) && ctl == old(ctl)
    {
      match step {
        case NewPlain(os) =>
          var id := Construct(Plain, os);
          ext := ext + {id};
        case NewChain(len, os) =>
          chains := chains[nextChain := Attempts(len, 1, next, false)];
          log := log + [Attempt(nextChain, 0)];
          var id := Construct(Client(nextChain, 0, false), os);
          nextChain := nextChain + 1;
          ext := ext + {id};
        case AddHandle(id, timed, a) =>
          var _ := AddHandle(id, timed, a);
        case Keep(id) =>
          ext := ext + {id};
        case Drop(id) =>
          ext := ext - {id};
      }
    }

    /** A callback: the program does any number of things. */
    method Callback()
      requires Inv(View())
      modifies this
      ensures Inv(View()) && Reach(old(View()), View()) && ctl == old(ctl)
      ensures ByProgram(old(View()), View()) && Extends(old(View()), View())
    {
      hide Inv, Enabled, Apply, Reach, ByProgram;
      ReachSelf(View());
      ByProgramSelf(View());
      var n: nat := *;
      while n > 0
        invariant Inv(View()) && Reach(old(View()), View()) && ctl == old(ctl)
        invariant ByProgram(old(View()), View()) && Extends(old(View()), View())
      {
        var step: Step := *;
        if IsProgramStep(step) && Enabled(View(), step) {
          ProgramExtends(old(View()), View(), step);
          ByProgramOn(old(View()), View(), step);
          ReachStep(old(View()), View(), step);
          StepKeepsInv(View(), step);
          Perform(step);
        }
        n := n - 1;
      }
    }

    /** The last strong references to some handles are gone: their destructors run, closing what they own
        and letting go of what they refer to in turn. */
    method Release()
      requires Inv(View())
      modifies this`objs, this`open, this`closes
      ensures Inv(View()) && Reach(old(View()), View()) && Leads(old(View()), View())
      ensures forall id | id in objs :: Referenced(View(), id)
      ensures objs.Keys <= old(objs.Keys) && forall id | id in objs :: objs[id] == old(objs[id])
    {
      hide Inv, Reach, Leads, Referenced, Enabled, Apply;
      ReachSelf(View());
      LeadsSelf(View());
      while exists id :: id in objs && !Referenced(View(), id)
        invariant Inv(View()) && Reach(old(View()), View()) && Leads(old(View()), View())
        invariant objs.Keys <= old(objs.Keys) && forall id | id in objs :: objs[id] == old(objs[id])
        decreases |objs|
      {
        var id :| id in objs && !Referenced(View(), id);
        DestroyIs(View(), id);
        ReachStep(old(View()), View(), Destroy(id));
        DestructionServes(View(), id);
        LeadsOn(old(View()), View(), Destroy(id));
        StepKeepsInv(View(), Destroy(id));
        ghost var before := View();
        var fd := objs[id].fd;
        objs := objs - {id};
        if fd.Some? {
          open := open - {fd.value};
          closes := closes + 1;
        }
        assert open == before.open - if fd.Some? then {fd.value} else {};
        assert View() == Apply(before, Destroy(id));
      }
    }

    // -------------------------------------------------------------------------------------------------
    // The handlers
    // -------------------------------------------------------------------------------------------------

    /** Timer::on_data. */
    method TimerOnData() returns (keep: bool)
      requires Inv(View()) && InHandler(View(), Enter) && objs[ctl.hdl].kind.Timer?
      modifies this`interest, this`reg, this`log, this`ctl
      ensures Enabled(old(View()), Fire) && View() == Apply(old(View()), Fire) && !keep
    {
      hide Inv, Enabled, Apply;
      TimerCanFire(View());
      var callback := objs[ctl.hdl].kind.closure;
      if callback.None? {
        ctl := ctl.(pc := Leave(false));
        return false;
      }
      var removed := EpollDelHdl(callback.value);
      if removed {
        log := log + [TimedOut(ctl.hdl, callback.value)];
      }
      ctl := ctl.(pc := Leave(false));
      keep := false;
    }

    /** connect_next before a callback: the chain is concluded. After a failed getsockopt the timer is
        disabled before the fail callback, after the last address behind it. */
    method EnterCallback(so: SoError)
      requires Connecting(View()) && (so == ConnectFailed ==> LastAddress(View()))
      modifies this`objs, this`chains, this`log, this`ctl
      ensures View() == Apply(old(View()), EnteringStep(so))
    {
      hide Enabled, Apply, Connecting, LastAddress;
      EnteringIs(View(), so);
      var h, c := ctl.hdl, objs[ctl.hdl].kind.chain;
      if so == CallFails {
        DisableTimer(ctl.timer);
      }
      chains := chains[c := chains[c].(done := true)];
      log := log + [if so == NoError then Connected(c, h) else Failed(c, h)];
      ctl := ctl.(pc := if so == NoError then InConnect else InFail(so == ConnectFailed));
    }

    /** connect_next after a callback. */
    method LeaveCallback()
      requires ctl.Run? && ctl.hdl in objs && (ctl.pc.InConnect? || ctl.pc.InFail?) && objs[ctl.hdl].kind.Client?
      modifies this`objs, this`ctl
      ensures View() == Apply(old(View()), if old(ctl.pc.InConnect?) then ConnectReturns else FailReturns)
    {
      var h := ctl.hdl;
      if ctl.pc.InConnect? {
        objs := objs[h := objs[h].(kind := objs[h].kind.(connected := true))];
        DisableTimer(ctl.timer);
        ctl := ctl.(pc := Open);
      } else {
        if ctl.pc.disable {
          DisableTimer(ctl.timer);
        }
        ctl := ctl.(pc := Closing);
      }
    }

    /** connect_next with addresses left: the next one is tried by a new handle, under a timer of its own if
        this handle still has one. */
    method NextAddress(os: Os, a: Answers)
      requires Connecting(View()) && EPOLL in objs && EPOLL < next
      modifies this
      ensures View() == TriesNext(old(View()), os, a)
    {
      ghost var s := View();
      hide TriesNext, Add, Connecting;
      TriesNextIs(s, os, a);
      var k := objs[ctl.hdl].kind;
      var timed := ctl.timer.Some? && ctl.timer.value in objs;
      chains := chains[k.chain := Attempts(chains[k.chain].len, k.pos + 2, next, false)];
      log := log + [Attempt(k.chain, k.pos + 1)];
      var nextConn := Construct(Client(k.chain, k.pos + 1, false), os);
      assert View() == NewAttempt(s, k.chain, s.chains[k.chain].len, k.pos + 1, os);
      hide NewAttempt, Create;
      var _ := AddHandle(nextConn, timed, a);
      ctl := ctl.(pc := Closing);
    }

    /** connect_next of the dispatched client connection. */
    method ConnectNext(so: SoError, os: Os, a: Answers) returns (connected: bool)
      requires Inv(View()) && Connecting(View())
      requires OsCan(View(), os) && !os.LostFd? && OsCan(Create(View(), Plain, os), a.os)
      modifies this
      ensures Inv(View()) && Leads(old(View()), View())
      ensures ConnectsNext(old(View()), so, connected, View())
    {
      hide Inv, Leads, Enabled, Apply, TriesNext, ByProgram, InCallback, ConnectsNext;
      ghost var s0 := View();
      InvMeansOld(s0);
      LeadsSelf(s0);
      CanDecide(s0, so, os, a);
      if so == ConnectFailed && !LastAddress(View()) {
        HandlerTakes(s0, s0, TryNext(os, a));
        NextConnects(s0, os, a);
        NextAddress(os, a);
        return false;
      }
      HandlerTakes(s0, s0, EnteringStep(so));
      Entered(s0, so);
      EnterCallback(so);
      ghost var s1 := View();
      OpenCallsProgram(s1);
      Callback();
      ghost var s2 := View();
      CallbackLeads(s1, s2);
      LeadsTransitive(s0, s1, s2);
      ghost var leaving := if so == NoError then ConnectReturns else FailReturns;
      MayReturn(s2);
      HandlerTakes(s0, s2, leaving);
      LeaveCallback();
      connected := so == NoError;
      CallbackConnects(s0, so, s1, s2, View());
    }

    /** Client::Connection::is_connected; any other connection and the listener are always connected. */
    method ClientIsConnected(r: Report, os: Os, a: Answers) returns (connected: bool)
      requires Inv(View()) && InHandler(View(), Enter) && !objs[ctl.hdl].kind.Timer?
      requires OsCan(View(), os) && !os.LostFd? && OsCan(Create(View(), Plain, os), a.os)
      modifies this
      ensures Inv(View()) && Leads(old(View()), View())
      ensures FindsConnected(old(View()), r, connected, View())
    {
      hide Leads, Inv, Enabled, Apply, Connecting, ConnectsNext;
      ghost var s := View();
      LeadsSelf(s);
      CanEnter(s);
      var kind := objs[ctl.hdl].kind;
      if kind.Client? && !kind.connected && r.writable {
        connected := ConnectNext(r.so, os, a);
        ConnectAnswers(s, r.so, connected, View());
        return;
      }
      HandlerTakes(s, s, Pass);
      ctl := ctl.(pc := Open);
      connected := true;
    }

    /** What on_data of a connection does once connected, as far as the loop can tell: message callbacks,
        then it keeps the connection or closes it, running the disconnect callback if there is one. */
    method Converse(talk: Talk) returns (keep: bool)
      requires Inv(View()) && ctl.Run? && (ctl.pc == Open || ctl.pc == Closing)
      modifies this
      ensures Inv(View()) && Leads(old(View()), View())
      ensures Converses(old(View()), talk, keep, View())
    {
      hide Inv, Leads, Enabled, Apply, Said;
      ghost var s0, h := View(), ctl.hdl;
      LeadsSelf(s0);
      HandlerExists(s0);
      SaidNothing(s0, s0, h);
      if ctl.pc == Open {
        DeliverAll(talk.messages);
        ghost var s1 := View();
        HandlerExists(s1);
        if !talk.closes {
          HandlerTakes(s0, s1, Serve);
          ctl := ctl.(pc := Leave(true));
          SaidNothing(s1, View(), h);
          SaidAdd(s0, s1, View(), h, talk.messages, 0, 0, 0);
          return true;
        }
        HandlerTakes(s0, s1, HangUp);
        ctl := ctl.(pc := Closing);
        SaidNothing(s1, View(), h);
        SaidAdd(s0, s1, View(), h, talk.messages, 0, 0, 0);
      }
      ghost var s2 := View();
      CloseDown(talk.hasDisconnectCb);
      LeadsTransitive(s0, s2, View());
      SaidAdd(s0, s2, View(), h, if s0.ctl.pc == Open then talk.messages else 0, 0,
              0, if talk.hasDisconnectCb then 1 else 0);
      keep := false;
    }

    /** The message callbacks. */
    method DeliverAll(messages: nat)
      requires Inv(View()) && ctl.Run? && ctl.pc == Open
      modifies this
      ensures Inv(View()) && Leads(old(View()), View()) && ctl == old(ctl)
      ensures Said(old(View()), View(), ctl.hdl, messages, 0)
    {
      hide Inv, Leads, Enabled, Apply, ByProgram, InCallback, Said;
      ghost var s0, h := View(), ctl.hdl;
      LeadsSelf(s0);
      SaidNothing(s0, s0, h);
      for n := 0 to messages
        invariant Inv(View()) && Leads(s0, View()) && ctl == s0.ctl
        invariant Said(s0, View(), h, n, 0)
      {
        ghost var s1 := View();
        HandlerExists(s1);
        HandlerTakes(s0, s1, Deliver);
        log := log + [Message(ctl.hdl)];
        ghost var s2 := View();
        SaidMessage(s1, s2, h);
        SaidAdd(s0, s1, s2, h, n, 0, 1, 0);
        OpenCallsProgram(s2);
        Callback();
        CallbackLeads(s2, View());
        LeadsTransitive(s0, s2, View());
        SaidAside(s2, View(), h);
        SaidAdd(s0, s2, View(), h, n + 1, 0, 0, 0);
      }
    }

    /** The end of on_data when it closes. */
    method CloseDown(hasDisconnectCb: bool)
      requires Inv(View()) && ctl.Run? && ctl.pc == Closing
      modifies this
      ensures Inv(View()) && Leads(old(View()), View()) && ctl == old(ctl).(pc := Leave(false))
      ensures Said(old(View()), View(), ctl.hdl, 0, if hasDisconnectCb then 1 else 0)
    {
      hide Inv, Leads, Enabled, Apply, ByProgram, InCallback, Said;
      ghost var s0, h := View(), ctl.hdl;
      LeadsSelf(s0);
      HandlerExists(s0);
      HandlerTakes(s0, s0, Close(hasDisconnectCb));
      if !hasDisconnectCb {
        ctl := ctl.(pc := Leave(false));
        SaidNothing(s0, View(), h);
        return;
      }
      log := log + [Disconnected(ctl.hdl)];
      ctl := ctl.(pc := Leave(false));
      ghost var s1 := View();
      SaidDisconnect(s0, s1, h);
      OpenCallsProgram(s0);
      StaysInCallback(s0, s1);
      Callback();
      CallbackLeads(s1, View());
      LeadsTransitive(s0, s1, View());
      SaidAside(s1, View(), h);
      SaidAdd(s0, s1, View(), h, 0, 1, 0, 0);
    }

    /** One event of a batch, for whatever handle is registered under its descriptor by then. */
    method Dispatch(r: Report) returns (keep: bool)
      requires Inv(View()) && ctl.Idle?
      modifies this
      ensures Inv(View()) && Reach(old(View()), View()) && Served(old(View()), r.fd, View()) && ctl.Idle?
      ensures forall id | id in objs :: Referenced(View(), id)
      ensures ServedAs(old(View()), r, View())
      ensures r.fd in old(reg) ==> if keep then r.fd in reg && reg[r.fd] == old(reg[r.fd]) else r.fd !in reg
      ensures keep <==> r.fd !in old(reg) || r.fd in reg
    {
      hide Inv, Reach, Leads, Enabled, Apply, Referenced, Handles, ServedAs, Served;
      ghost var s0 := View();
      LooksUp(s0, r.fd);
      if r.fd !in reg {
        Release();
        DispatchReaches(s0, r.fd, View());
        NoneServed(s0, r, View());
        return true;
      }
      ctl := Run(r.fd, reg[r.fd].hdl, reg[r.fd].timer, Enter);
      ghost var s1 := View();
      keep := RunHandler(r);
      ghost var s2 := View();
      HandledAt(s1, r, keep, s2);
      Finish(keep);
      LeadsTransitive(s1, s2, View());
      DispatchReaches(s0, r.fd, View());
      HandledStill(s0, s1, r, keep, s2, View());
    }

    /** The end of a dispatch: the entry goes unless the handler wants to be kept, and with it whatever nothing
        refers to any more. */
    method Finish(keep: bool)
      requires Inv(View()) && ctl.Run? && ctl.pc == Leave(keep)
      modifies this
      ensures Inv(View()) && Leads(old(View()), View())
      ensures Finished(old(View()), keep, View())
    {
      hide Inv, Leads, Enabled, Apply, Referenced;
      ghost var s2 := View();
      LeadsSelf(s2);
      HandlerExists(s2);
      DispatchedIsRegistered(s2);
      HandlerTakes(s2, s2, Return);
      if !keep {
        var _ := EpollDelEntry(ctl.fd);
      }
      ctl := Idle;
      ghost var s3 := View();
      Release();
      LeadsTransitive(s2, s3, View());
    }

    /** hdl->on_data of the dispatched handle. */
    method RunHandler(r: Report) returns (keep: bool)
      requires Inv(View()) && ctl.Run? && ctl.pc == Enter
      modifies this
      ensures Inv(View()) && Leads(old(View()), View())
      ensures Handles(old(View()), r, keep, View())
    {
      hide Inv, Leads, Enabled, Apply, FindsConnected, Converses, Handles;
      ghost var s0 := View();
      HandlerExists(s0);
      LeadsSelf(s0);
      if objs[ctl.hdl].kind.Timer? {
        TimerCanFire(s0);
        HandlerTakes(s0, s0, Fire);
        TimerHandles(s0, r);
        keep := TimerOnData();
        return;
      }
      var os: Os := *;
      var a: Answers := *;
      if !OsCan(View(), os) || os.LostFd? || !OsCan(Create(View(), Plain, os), a.os) {
        os, a := NoFd, Answers(NoFd, false, false);
      }
      var connected := ClientIsConnected(r, os, a);
      ghost var s1 := View();
      FoundAt(s0, r, connected, s1);
      keep := Converse(r.talk);
      LeadsTransitive(s0, s1, View());
      Handled(s0, r, connected, s1, keep, View());
    }

    /** What one epoll_wait returned is served, event by event. */
    method ServeBatch(batch: seq<Report>) returns (ghost states: seq<Loop>)
      requires Inv(View()) && IsBatch(View(), Descriptors(batch))
      modifies this
      ensures Inv(View()) && Reach(old(View()), View()) && ctl.Idle?
      ensures ServesFully(old(View()), batch, states)
      ensures |states| == |batch| + 1 && states[|batch|] == View()
    {
      hide Inv, Reach, Referenced, Served, ServedAs, ServesSome;
      ReachSelf(View());
      states := [View()];
      ServesNone(View(), batch);
      for i := 0 to |batch|
        invariant Inv(View()) && Reach(old(View()), View()) && ctl.Idle?
        invariant |states| == i + 1 && states[i] == View() && ServesSome(old(View()), batch, states, i)
      {
        ghost var s := View();
        var _ := Dispatch(batch[i]);
        ReachTransitive(old(View()), s, View());
        ServesSomeMore(old(View()), batch, states, i, View());
        states := states + [View()];
      }
    }

    /** `start`. `batches` is what the calls of epoll_wait return, one after the other; what epoll_wait cannot
        return is no batch. None is the error of a loop without epoll descriptor; otherwise the result says
        whether the loop ended by itself. `rounds` are the states of each batch. */
    method Start(batches: seq<seq<Report>>) returns (r: Option<bool>, ghost rounds: seq<seq<Loop>>)
      requires Inv(View()) && ctl.Idle? && EPOLL in objs
      modifies this
      ensures Inv(View()) && Reach(old(View()), View()) && ctl.Idle?
      ensures r.None? <==> old(objs[EPOLL].fd.None?)
      ensures r.None? ==> View() == old(View())
      ensures r == Some(true) ==> reg == map[] && interest == {}
      ensures r == Some(false) ==> reg != map[]
      ensures r.Some? ==> Started(old(View()), batches, rounds, View())
      ensures r.Some? ==> |rounds| == |batches| || reg == map[]
    {
      hide Inv, Reach, Serves, ServesFully, Started, Round, IsBatch;
      ReachSelf(View());
      rounds := [];
      StartedNone(View(), batches);
      if objs[EPOLL].fd.None? {
        return None, [];
      }
      var n := 0;
      while reg != map[] && n < |batches|
        invariant Inv(View()) && Reach(old(View()), View()) && ctl.Idle?
        invariant n == |rounds| <= |batches|
        invariant Started(old(View()), batches, rounds, View())
      {
        ghost var s := View();
        ghost var states := [s];
        if CanReturn(View(), batches[n]) {
          CanReturnIs(s, batches[n]);
          states := ServeBatch(batches[n]);
          ReachTransitive(old(View()), s, View());
        }
        ServesFullyIs(s, batches[n], states);
        StartedMore(old(View()), batches, rounds, s, states);
        rounds := rounds + [states];
        n := n + 1;
      }
      EmptyRegistry(View());
      r := Some(reg == map[]);
    }
  }
}
