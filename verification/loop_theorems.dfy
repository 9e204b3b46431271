/** What holds in every reachable state of the event loop: over all runs, with callbacks that create, add
    and drop handles in the middle of a dispatch, and with descriptor numbers that are reused. */
module LoopTheorems {
  import opened LoopModel
  import opened LoopInvariant
  import opened LoopSteps
  import opened LoopObjects
  import opened LoopRegistry
  import opened LoopCreation

  lemma InitInv(epfd: Option<Fd>)
    ensures Inv(Init(epfd))
  {
    var s := Init(epfd);
    assert Owners(s.objs) == if epfd.Some? then {EPOLL} else {};
    if epfd.Some? {
      assert s.objs[EPOLL].fd == Some(epfd.value);
    }
  }

  lemma StepKeepsInv(s: Loop, step: Step)
    requires Inv(s) && Enabled(s, step)
    ensures Inv(Apply(s, step))
  {
    hide FdInv, RegInv, TimerInv, LogInv, ChainInv, HistoryInv, DisconnectIsLast;
    match step
    case NewPlain(os) => NewPlainKeepsInv(s, os);
    case NewChain(len, os) => NewChainKeepsInv(s, len, os);
    case AddHandle(id, timed, a) => AddHandleKeepsInv(s, id, timed, a);
    case Keep(id) => ExtIsLive(s); ExtKeepsInv(s, s.ext + {id});
    case Drop(id) => ExtIsLive(s); ExtKeepsInv(s, s.ext - {id});
    case Destroy(id) => DestroyKeepsInv(s, id);
    case Dispatch(fd) => DispatchKeepsInv(s, fd);
    case Return => ReturnKeepsInv(s);
    case Fire => FireKeepsInv(s);
    case Pass => PassKeepsInv(s);
    case GetSockOptFails => GetSockOptFailsKeepsInv(s);
    case Connects => ConnectsKeepsInv(s);
    case ConnectReturns => ConnectReturnsKeepsInv(s);
    case LastFails => LastFailsKeepsInv(s);
    case FailReturns => FailReturnsKeepsInv(s);
    case TryNext(os, a) => TryNextKeepsInv(s, os, a);
    case Deliver => DeliverKeepsInv(s);
    case HangUp => HangUpKeepsInv(s);
    case Close(callback) => CloseKeepsInv(s, callback);
    case Serve => ServeKeepsInv(s);
  }

  lemma ExtIsLive(s: Loop)
    requires FdInv(s)
    ensures EPOLL in s.ext && s.ext <= s.objs.Keys
  {
  }

  lemma NextKeepsInv(s: Loop, s': Loop)
    requires Inv(s) && Next(s, s')
    ensures Inv(s')
  {
    var step :| Enabled(s, step) && s' == Apply(s, step);
    StepKeepsInv(s, step);
  }

  lemma {:induction false} RunKeepsInv(run: seq<Loop>, n: nat)
    requires IsRun(run) && Inv(run[0]) && n < |run|
    ensures Inv(run[n])
  {
    hide Inv;
    if n > 0 {
      RunKeepsInv(run, n - 1);
      assert Next(run[n - 1], run[n]);
      NextKeepsInv(run[n - 1], run[n]);
    }
  }

  lemma ReachKeepsInv(s: Loop, s': Loop)
    requires Inv(s) && Reach(s, s')
    ensures Inv(s')
  {
    hide Inv;
    var run :| IsRun(run) && run[0] == s && run[|run| - 1] == s';
    RunKeepsInv(run, |run| - 1);
  }

  lemma ReachSelf(s: Loop)
    ensures Reach(s, s)
  {
    assert IsRun([s]);
  }

  lemma ReachStep(s: Loop, s': Loop, step: Step)
    requires Enabled(s', step) && Reach(s, s')
    ensures Reach(s, Apply(s', step))
  {
    hide Enabled, Apply;
    var run :| IsRun(run) && run[0] == s && run[|run| - 1] == s';
    assert Next(s', Apply(s', step));
    ReachNext(run, Apply(s', step));
  }

  lemma ReachNext(run: seq<Loop>, s: Loop)
    requires IsRun(run) && Next(run[|run| - 1], s)
    ensures IsRun(run + [s]) && Reach(run[0], s)
  {
    hide Next;
    var longer := run + [s];
    forall i, j | 0 <= i < j < |longer| && j == i + 1
      ensures Next(longer[i], longer[j])
    {
      if j < |run| {
        assert Next(run[i], run[j]);
      }
    }
    assert longer[0] == run[0] && longer[|longer| - 1] == s;
  }

  lemma ReachTransitive(s: Loop, s1: Loop, s2: Loop)
    requires Reach(s, s1) && Reach(s1, s2)
    ensures Reach(s, s2)
  {
    hide Next;
    var a :| IsRun(a) && a[0] == s && a[|a| - 1] == s1;
    var b :| IsRun(b) && b[0] == s1 && b[|b| - 1] == s2;
    var run, n := a + b[1..], |a| - 1;
    forall i, j | 0 <= i < j < |run| && j == i + 1
      ensures Next(run[i], run[j])
    {
      if j <= n {
        assert Next(a[i], a[j]);
      } else {
        assert run[i] == b[i - n] && run[j] == b[j - n];
        assert Next(b[i - n], b[j - n]);
      }
    }
    assert run[|run| - 1] == s2;
  }

  ghost predicate Reachable(s: Loop) {
    exists epfd :: Reach(Init(epfd), s)
  }

  lemma ReachableInv(s: Loop)
    requires Reachable(s)
    ensures Inv(s)
  {
    hide Inv;
    var epfd :| Reach(Init(epfd), s);
    InitInv(epfd);
    ReachKeepsInv(Init(epfd), s);
  }

  // ---------------------------------------------------------------------------------------------------
  // What one step leaves alone
  // ---------------------------------------------------------------------------------------------------

  lemma RemovalKeepsHandles(s: Loop, fd: Fd)
    ensures EpollDel(s, fd).objs == s.objs && EpollDel(s, fd).added == s.added
    ensures EpollDel(s, fd).chains == s.chains
  {
  }

  lemma ClosureKeepsHandles(s: Loop, t: Id, h: Id)
    requires h in s.objs
    ensures RunClosure(s, t, h).objs == s.objs && RunClosure(s, t, h).added == s.added
    ensures RunClosure(s, t, h).chains == s.chains && RunClosure(s, t, h).ctl == s.ctl
  {
  }

  lemma DisableKeepsHandle(s: Loop, timer: Option<Id>, h: Id)
    requires h in s.objs
    ensures var s' := Disable(s, timer);
            && h in s'.objs && s'.objs[h].fd == s.objs[h].fd && s'.added == s.added
            && (s.objs[h].kind.Client? ==> s'.objs[h] == s.objs[h])
  {
  }

  lemma AddKeepsHandle(s: Loop, id: Id, timed: bool, a: Answers, h: Id)
    requires id in s.objs && EPOLL in s.objs && h in s.objs && h < s.next
    ensures var s' := Add(s, id, timed, a); h in s'.objs && s'.objs[h] == s.objs[h] && s.added <= s'.added
  {
  }

  lemma NewAttemptKeepsHandle(s: Loop, c: Chain, len: nat, pos: nat, os: Os, h: Id)
    requires h in s.objs && h < s.next
    ensures var s' := NewAttempt(s, c, len, pos, os);
            && h in s'.objs && s'.objs[h] == s.objs[h] && s'.added == s.added
            && s.next in s'.objs && s'.next == s.next + 1
  {
  }

  /** A step other than its destruction leaves a handle in existence with its descriptor. */
  lemma StepKeepsHandle(s: Loop, step: Step, h: Id)
    requires Enabled(s, step) && step != Destroy(h) && h in s.objs && h < s.next
    ensures var s' := Apply(s, step); h in s'.objs && s'.objs[h].fd == s.objs[h].fd && s.added <= s'.added
  {
    hide Add, NewAttempt, EpollDel, RunClosure, Disable, Referenced;
    match step
    case AddHandle(id, timed, a) => AddKeepsHandle(s, id, timed, a, h);
    case NewChain(len, os) => NewAttemptKeepsHandle(s, s.nextChain, len, 0, os, h);
    case TryNext(os, a) => TryNextKeepsHandle(s, os, a, h);
    case Return => RemovalKeepsHandles(s, s.ctl.fd);
    case Fire =>
      var closure := CurrentKind(s).closure;
      if closure.Some? {
        ClosureKeepsHandles(s, s.ctl.hdl, closure.value);
      }
    case GetSockOptFails => DisableKeepsHandle(s, s.ctl.timer, h);
    case ConnectReturns =>
      var x := s.ctl.hdl;
      var s1 := s.(objs := s.objs[x := s.objs[x].(kind := s.objs[x].kind.(connected := true))]);
      DisableKeepsHandle(s1, s.ctl.timer, h);
    case FailReturns => DisableKeepsHandle(s, s.ctl.timer, h);
    case _ =>
  }

  lemma TryNextKeepsHandle(s: Loop, os: Os, a: Answers, h: Id)
    requires Enabled(s, TryNext(os, a)) && h in s.objs && h < s.next
    ensures var s' := Apply(s, TryNext(os, a));
            h in s'.objs && s'.objs[h] == s.objs[h] && s.added <= s'.added
  {
    hide Add;
    var k := CurrentKind(s);
    var timed := s.ctl.timer.Some? && s.ctl.timer.value in s.objs;
    NewAttemptKeepsHandle(s, k.chain, s.chains[k.chain].len, k.pos + 1, os, h);
    AddKeepsHandle(NewAttempt(s, k.chain, s.chains[k.chain].len, k.pos + 1, os), s.next, timed, a, h);
  }

  // ---------------------------------------------------------------------------------------------------
  // The registry and the descriptors
  // ---------------------------------------------------------------------------------------------------

  /** The keys of m_hdls are the kernel's interest list; the handle of every entry is alive and owns the
      descriptor it is keyed by, which is open. */
  lemma RegistryAgreement(s: Loop)
    requires Reachable(s)
    ensures s.reg.Keys == s.interest
    ensures forall fd | fd in s.reg ::
              s.reg[fd].hdl in s.objs && s.objs[s.reg[fd].hdl].fd == Some(fd) && fd in s.open
  {
    ReachableInv(s);
  }

  /** The counters differ by the number of live handles with a descriptor; the open descriptors are those
      handles' and the ones a failed timer constructor forgot; and no two handles share one. */
  lemma FdConservation(s: Loop)
    requires Reachable(s)
    ensures s.opens - s.closes == |set id | id in s.objs && s.objs[id].fd.Some?|
    ensures forall fd :: fd in s.open <==>
              fd in s.leaked || exists id :: id in s.objs && s.objs[id].fd == Some(fd)
    ensures forall i, j | i in s.objs && j in s.objs && s.objs[i].fd.Some? && s.objs[i].fd == s.objs[j].fd :: i == j
  {
    ReachableInv(s);
    assert Owners(s.objs) == set id | id in s.objs && s.objs[id].fd.Some?;
  }

  /** A destructor closes a descriptor that is open, that no other handle owns and that is not registered,
      and the handle is never seen again. */
  lemma ClosesOnceAndUnregistered(s: Loop, id: Id)
    requires Reachable(s) && Enabled(s, Destroy(id)) && s.objs[id].fd.Some?
    ensures var fd, s' := s.objs[id].fd.value, Apply(s, Destroy(id));
            && fd in s.open && fd !in s.reg && fd !in s.interest && s'.open == s.open - {fd}
            && id !in s'.objs && id < s'.next
            && s'.closes == s.closes + 1
            && forall i | i in s'.objs :: s'.objs[i].fd != Some(fd)
  {
    ReachableInv(s);
  }

  // ---------------------------------------------------------------------------------------------------
  // Dispatch and timeouts
  // ---------------------------------------------------------------------------------------------------

  /** As long as a handler runs, whatever it and its callbacks do, the entry it was looked up in is still
      there with the same handle and timer, and its handle is alive. */
  lemma {:induction false} DispatchStability(run: seq<Loop>, i: nat, j: nat)
    requires IsRun(run) && Inv(run[0]) && i <= j < |run|
    requires forall k | i <= k <= j :: run[k].ctl.Run?
    ensures run[j].ctl.fd == run[i].ctl.fd && run[j].ctl.hdl == run[i].ctl.hdl && run[j].ctl.timer == run[i].ctl.timer
    ensures run[i].ctl.fd in run[j].reg && run[j].reg[run[i].ctl.fd] == Entry(run[i].ctl.hdl, run[i].ctl.timer)
    ensures run[i].ctl.hdl in run[j].objs
  {
    hide Inv;
    RunKeepsInv(run, j);
    DispatchedIsRegistered(run[j]);
    if i < j {
      DispatchStability(run, i, j - 1);
      assert Next(run[j - 1], run[j]);
      HandlerKeepsEntry(run[j - 1], run[j]);
    }
  }

  lemma HandlerKeepsEntry(s: Loop, s': Loop)
    requires Next(s, s') && s.ctl.Run? && s'.ctl.Run?
    ensures s'.ctl == s.ctl.(pc := s'.ctl.pc)
  {
    var step :| Enabled(s, step) && s' == Apply(s, step);
    StepKeepsEntry(s, step);
  }

  lemma StepKeepsEntry(s: Loop, step: Step)
    requires Enabled(s, step) && s.ctl.Run?
    ensures Apply(s, step).ctl.Idle? || Apply(s, step).ctl == s.ctl.(pc := Apply(s, step).ctl.pc)
  {
    match step
    case AddHandle(id, timed, a) =>
    case TryNext(os, a) =>
    case _ =>
  }

  /** The dispatched handle is a client that still awaits its connect. */
  ghost predicate AwaitsConnect(s: Loop) {
    && InHandler(s, Enter) && s.objs[s.ctl.hdl].kind.Client? && !s.objs[s.ctl.hdl].kind.connected
  }

  /** The next address can be tried, whatever new descriptors the system hands out for it and its timer. */
  ghost predicate CanTryNext(s: Loop) {
    forall os: Os, a: Answers | OsCan(s, os) && !os.LostFd? && OsCan(Create(s, Plain, os), a.os) ::
      Enabled(s, TryNext(os, a))
  }

  /** A handler can always go on: the handle, the target of the closure it refers to and the chain of an
      attempt exist. An attempt that awaits its connect can go on whether or not the event is writable, and
      whatever getsockopt says; with addresses left it can try the next one with any new descriptors. */
  lemma HandlerNeverStuck(s: Loop)
    requires Reachable(s) && s.ctl.Run?
    ensures s.ctl.hdl in s.objs
    ensures match s.ctl.pc
            case Enter => if s.objs[s.ctl.hdl].kind.Timer? then Enabled(s, Fire) else Enabled(s, Pass)
            case InConnect => Enabled(s, ConnectReturns)
            case InFail(_) => Enabled(s, FailReturns)
            case Open => Enabled(s, Serve) && Enabled(s, Deliver) && Enabled(s, HangUp)
            case Closing => Enabled(s, Close(true)) && Enabled(s, Close(false))
            case Leave(_) => Enabled(s, Return)
    ensures AwaitsConnect(s) ==>
      && s.objs[s.ctl.hdl].kind.chain in s.chains
      && Enabled(s, GetSockOptFails) && Enabled(s, Connects)
      && (Enabled(s, LastFails) || CanTryNext(s))
  {
    hide Inv, Reachable, CanTryNext;
    ReachableInv(s);
    HandlerGoesOn(s);
    if AwaitsConnect(s) {
      ConnectGoesOn(s);
    }
  }

  lemma HandlerGoesOn(s: Loop)
    requires Inv(s) && s.ctl.Run?
    ensures s.ctl.hdl in s.objs
    ensures s.ctl.pc == InConnect ==> s.objs[s.ctl.hdl].kind.Client?
    ensures s.ctl.pc == Enter && s.objs[s.ctl.hdl].kind.Timer? && s.objs[s.ctl.hdl].kind.closure.Some? ==>
              s.objs[s.ctl.hdl].kind.closure.value in s.objs
  {
    hide FdInv, RegInv, LogInv, ChainInv, HistoryInv, DisconnectIsLast;
    assert s.objs[s.ctl.hdl].kind.Timer? && s.objs[s.ctl.hdl].kind.closure.Some? ==> IsAimed(s, s.ctl.hdl);
  }

  lemma ConnectGoesOn(s: Loop)
    requires Inv(s) && AwaitsConnect(s)
    ensures Connecting(s) && s.objs[s.ctl.hdl].kind.chain in s.chains
    ensures Enabled(s, GetSockOptFails) && Enabled(s, Connects)
    ensures Enabled(s, LastFails) || CanTryNext(s)
  {
    hide RegInv, TimerInv, LogInv, HistoryInv, DisconnectIsLast;
    InvMeansOld(s);
  }

  /** A firing timer removes the entry of the very handle it was armed for, or nothing, however often the
      number of that handle's descriptor was reused meanwhile. */
  lemma TimeoutIsAbaSafe(s: Loop)
    requires Reachable(s) && Enabled(s, Fire)
    ensures var s' := Apply(s, Fire);
            || (s'.reg == s.reg && s'.interest == s.interest)
            || exists fd, h ::
                 && fd in s.reg && s.reg[fd].hdl == h && Armed(s.ctl.hdl, h) in s.log
                 && (forall h' | Armed(s.ctl.hdl, h') in s.log :: h' == h)
                 && fd != s.ctl.fd
                 && s'.reg == s.reg - {fd} && s'.interest == s.interest - {fd}
  {
    hide FdInv, RegInv, TimerInv, LogInv, ChainInv, HistoryInv, DisconnectIsLast, Reachable;
    ReachableInv(s);
    var t := s.ctl.hdl;
    DispatchedIsRegistered(s);
    if IsAimed(s, t) {
      var h := s.objs[t].kind.closure.value;
      TargetIsAnother(s);
      ClosureRemovesTarget(s, h);
      if Registered(s, h) {
        RegisteredApart(s, t, h);
        ArmedForOne(s, t, h);
        var fd := s.objs[h].fd.value;
        assert fd in s.reg && s.reg[fd].hdl == h;
      }
    }
  }

  lemma ArmedForOne(s: Loop, t: Id, h: Id)
    requires TimerInv(s) && Armed(t, h) in s.log
    ensures forall h' | Armed(t, h') in s.log :: h' == h
  {
  }

  /** No attempt both runs its connect callback and is removed by a timer. */
  lemma ConnectVersusTimeout(s: Loop, c: Chain, t: Id, h: Id)
    requires Reachable(s)
    ensures !(Connected(c, h) in s.log && TimedOut(t, h) in s.log)
  {
    ReachableInv(s);
  }

  /** Once the connect callback of a handle ran, the handle's timer removes nothing when it fires; the loop
      then removes the timer alone. */
  lemma TimerHarmlessAfterConnect(s: Loop, c: Chain, h: Id)
    requires Reachable(s) && Enabled(s, Fire) && Connected(c, h) in s.log && Armed(s.ctl.hdl, h) in s.log
    ensures var s' := Apply(s, Fire);
            s'.reg == s.reg && s'.ctl == s.ctl.(pc := Leave(false)) && Apply(s', Return).reg == s.reg - {s.ctl.fd}
  {
    hide FdInv, ChainInv, HistoryInv, DisconnectIsLast, Reachable;
    ReachableInv(s);
    var t := s.ctl.hdl;
    if IsAimed(s, t) {
      ArmedForOne(s, t, h);
      TargetIsAnother(s);
      AimedNotConnected(s, t);
    }
    DispatchedIsRegistered(s);
    ReturnRemoves(Apply(s, Fire));
  }

  lemma ReturnRemoves(s: Loop)
    requires s.ctl.Run? && s.ctl.pc == Leave(false) && s.ctl.fd in s.interest
    ensures Enabled(s, Return) && Apply(s, Return).reg == s.reg - {s.ctl.fd}
  {
  }

  /** Nothing that happened is forgotten. */
  lemma StepKeepsLog(s: Loop, step: Step)
    requires Enabled(s, step)
    ensures s.log <= Apply(s, step).log
  {
    match step
    case AddHandle(id, timed, a) =>
    case TryNext(os, a) =>
    case _ =>
  }

  lemma {:induction false} LogOnlyGrows(run: seq<Loop>, n: nat)
    requires IsRun(run) && n < |run|
    ensures run[0].log <= run[n].log
  {
    if n > 0 {
      LogOnlyGrows(run, n - 1);
      assert Next(run[n - 1], run[n]);
      var step :| Enabled(run[n - 1], step) && run[n] == Apply(run[n - 1], step);
      StepKeepsLog(run[n - 1], step);
    }
  }

  lemma ReachKeepsLog(s: Loop, s': Loop)
    requires Reach(s, s')
    ensures s.log <= s'.log
  {
    hide Next;
    var run :| IsRun(run) && run[0] == s && run[|run| - 1] == s';
    LogOnlyGrows(run, |run| - 1);
  }

  // ---------------------------------------------------------------------------------------------------
  // Callbacks and chains
  // ---------------------------------------------------------------------------------------------------

  /** The disconnect callback of a connection runs at most once, and no message callback follows it. */
  lemma DisconnectAtMostOnce(s: Loop, i: nat, j: nat, h: Id)
    requires Reachable(s) && i < j < |s.log| && s.log[i] == Disconnected(h)
    ensures s.log[j] != Disconnected(h) && s.log[j] != Message(h)
  {
    ReachableInv(s);
  }

  /** The attempts of a chain follow its address list from the start, without skip or repeat, and are no
      more than its addresses; at most one of the connect and fail callbacks runs, at most once; and
      nothing is tried after it. */
  lemma AddressChain(s: Loop, c: Chain)
    requires Reachable(s) && c in s.chains
    ensures Tried(s.log, c) == Upto(s.chains[c].tried) && s.chains[c].tried <= s.chains[c].len
    ensures Conclusions(s.log, c) <= 1
    ensures forall i, j | 0 <= i < j < |s.log| && Concludes(s.log[i], c) ::
              !Concludes(s.log[j], c) && !(s.log[j].Attempt? && s.log[j].chain == c)
  {
    ReachableInv(s);
  }

  lemma HistoryOfChain(s: Loop, c: Chain)
    requires Inv(s) && c in s.chains
    ensures Tried(s.log, c) == Upto(s.chains[c].tried)
    ensures Conclusions(s.log, c) == if s.chains[c].done then 1 else 0
  {
  }

  /** An attempt that is refused gives up exactly when every address of its chain has been tried, and else it can
      try the next one, which is the first that has not been. */
  lemma GivesUpOnlyAtEnd(s: Loop)
    requires Reachable(s) && AwaitsConnect(s)
    ensures var k := s.objs[s.ctl.hdl].kind;
            && k.chain in s.chains && k.pos + 1 == |Tried(s.log, k.chain)| <= s.chains[k.chain].len
            && (Enabled(s, LastFails) <==> |Tried(s.log, k.chain)| == s.chains[k.chain].len)
            && (CanTryNext(s) || Enabled(s, LastFails))
            && forall os, a | Enabled(s, TryNext(os, a)) :: |Tried(s.log, k.chain)| < s.chains[k.chain].len
  {
    hide FdInv, RegInv, TimerInv, LogInv, DisconnectIsLast, Reachable;
    ReachableInv(s);
    ConnectGoesOn(s);
    PositionOfAttempt(s);
  }

  lemma PositionOfAttempt(s: Loop)
    requires Inv(s) && Connecting(s)
    ensures var k := s.objs[s.ctl.hdl].kind;
            && k.chain in s.chains && k.pos + 1 == s.chains[k.chain].tried <= s.chains[k.chain].len
            && |Tried(s.log, k.chain)| == s.chains[k.chain].tried && Conclusions(s.log, k.chain) == 0
  {
    hide FdInv, RegInv, TimerInv, LogInv, DisconnectIsLast;
    ActiveIsCurrent(s);
  }

  /** The fail callback runs only after a failed getsockopt or when every address has been tried. */
  lemma FailsOnlyAtEnd(s: Loop, step: Step, c: Chain, h: Id)
    requires Reachable(s) && Enabled(s, step) && Failed(c, h) !in s.log && Failed(c, h) in Apply(s, step).log
    ensures c in s.chains && (step == GetSockOptFails || |Tried(s.log, c)| == s.chains[c].len)
  {
    hide Inv, Reachable, Add;
    ReachableInv(s);
    if step == LastFails {
      GivesUpOnlyAtEnd(s);
    } else if step.TryNext? {
      InvMeansOld(s);
      TryNextLogsAttempt(s, step.os, step.a);
    } else if step.AddHandle? {
      AddLogsNoFailure(s, step.id, step.timed, step.a, c, h);
    }
  }

  lemma AddLogsNoFailure(s: Loop, id: Id, timed: bool, a: Answers, c: Chain, h: Id)
    requires id in s.objs && EPOLL in s.objs
    ensures Failed(c, h) in Add(s, id, timed, a).log ==> Failed(c, h) in s.log
  {
  }

  /** What trying the next address writes: the attempt and, if the old attempt's timer still exists and the loop
      has an epoll descriptor, that a timer was armed for the new one. */
  lemma TryNextLogsAttempt(s: Loop, os: Os, a: Answers)
    requires Enabled(s, TryNext(os, a)) && EPOLL < s.next
    ensures var k := s.objs[s.ctl.hdl].kind;
            var timed := s.ctl.timer.Some? && s.ctl.timer.value in s.objs && s.objs[EPOLL].fd.Some?;
            Apply(s, TryNext(os, a)).log
            == s.log + [Attempt(k.chain, k.pos + 1)] + if timed then [Armed(s.next + 1, s.next)] else []
  {
  }

  /** During the fail callback after a failed getsockopt no timer is aimed at the attempt; during the one after
      the last address it still may be, and when that returns it is not. */
  lemma DisabledByThen(s: Loop, step: Step)
    requires Reachable(s) && Enabled(s, step)
    requires step == GetSockOptFails || step == ConnectReturns || (step == FailReturns && s.ctl.pc == InFail(true))
    ensures forall t | t in Apply(s, step).objs :: Apply(s, step).objs[t].kind != Timer(Some(s.ctl.hdl))
  {
    hide FdInv, RegInv, TimerInv, LogInv, ChainInv, HistoryInv, DisconnectIsLast, Reachable;
    ReachableInv(s);
    Unaims(s, step);
  }

  lemma Unaims(s: Loop, step: Step)
    requires Inv(s) && Enabled(s, step)
    requires step == GetSockOptFails || step == ConnectReturns || (step == FailReturns && s.ctl.pc == InFail(true))
    ensures forall t | t in Apply(s, step).objs :: Apply(s, step).objs[t].kind != Timer(Some(s.ctl.hdl))
  {
    hide FdInv, RegInv, TimerInv, LogInv, ChainInv, HistoryInv, DisconnectIsLast;
    DisabledTimerAimsNoMore(s);
    var s' := Disable(s, s.ctl.timer);
    forall t | t in Apply(s, step).objs
      ensures Apply(s, step).objs[t].kind != Timer(Some(s.ctl.hdl))
    {
      assert IsAimed(s', t) <==> t in s'.objs && s'.objs[t].kind.Timer? && s'.objs[t].kind.closure.Some?;
    }
  }

  /** Between dispatches at most one handle of a chain is registered, and it is the last attempt. */
  lemma OneAttemptAtATime(s: Loop, h: Id, h': Id)
    requires Reachable(s) && s.ctl.Idle?
    requires Registered(s, h) && Registered(s, h') && s.objs[h].kind.Client? && s.objs[h'].kind.Client?
    requires s.objs[h].kind.chain == s.objs[h'].kind.chain
    ensures h == h' && s.objs[h].kind.pos + 1 == |Tried(s.log, s.objs[h].kind.chain)|
  {
    ReachableInv(s);
    assert !Retired(s, h) && !Retired(s, h');
  }

  // ---------------------------------------------------------------------------------------------------
  // Lifetimes
  // ---------------------------------------------------------------------------------------------------

  /** A strong reference that is not a timer's closure leads to `id`. */
  ghost predicate Rooted(s: Loop, id: Id) {
    || id in s.ext
    || (exists fd | fd in s.reg :: s.reg[fd].hdl == id)
    || (s.ctl.Run? && (s.ctl.hdl == id || (s.ctl.timer == Some(id) && (s.ctl.pc.InConnect? || s.ctl.pc.InFail?))))
  }

  /** `id` can be reached from the registry, the running dispatch and the program, through closures. */
  ghost predicate Alive(s: Loop, id: Id)
    decreases s.next - id
  {
    || Rooted(s, id)
    || exists t: Id | id < t < s.next :: IsAimed(s, t) && s.objs[t].kind.closure == Some(id) && Alive(s, t)
  }

  lemma AliveIsReferenced(s: Loop, id: Id)
    requires Alive(s, id)
    ensures Referenced(s, id)
  {
    if !Rooted(s, id) {
      var t: Id :| id < t < s.next && IsAimed(s, t) && s.objs[t].kind.closure == Some(id) && Alive(s, t);
      assert t in s.objs && s.objs[t].kind == Timer(Some(id));
    }
  }

  lemma ReferencedIsNotDestroyed(s: Loop, id: Id)
    requires Referenced(s, id)
    ensures !Enabled(s, Destroy(id))
  {
  }

  /** A handle is not destroyed as long as it can be reached: if it can at every moment before `j`, then at
      `j` it still exists with the same descriptor, which is open and nobody else's. So its descriptor number
      cannot have been handed out again meanwhile. */
  lemma {:induction false} AliveIsNotDestroyed(run: seq<Loop>, i: nat, j: nat, id: Id)
    requires IsRun(run) && Inv(run[0]) && i <= j < |run| && id in run[i].objs
    requires forall k | i <= k < j :: Alive(run[k], id)
    ensures id in run[j].objs && run[j].objs[id].fd == run[i].objs[id].fd
    ensures run[j].objs[id].fd.Some? ==>
              && run[j].objs[id].fd.value in run[j].open
              && forall h | h in run[j].objs && h != id :: run[j].objs[h].fd != run[j].objs[id].fd
  {
    hide Inv, Enabled, Apply, Alive, Referenced;
    RunKeepsInv(run, j);
    if i < j {
      AliveIsNotDestroyed(run, i, j - 1, id);
      RunKeepsInv(run, j - 1);
      AliveIsReferenced(run[j - 1], id);
      OwnersAreOld(run[j - 1]);
      assert Next(run[j - 1], run[j]);
      var step :| Enabled(run[j - 1], step) && run[j] == Apply(run[j - 1], step);
      ReferencedIsNotDestroyed(run[j - 1], id);
      StepKeepsHandle(run[j - 1], step, id);
    }
    OwnersAreOld(run[j]);
  }

  lemma OwnersAreOld(s: Loop)
    requires Inv(s)
    ensures forall id | id in s.objs :: id < s.next && (s.objs[id].fd.Some? ==> s.objs[id].fd.value in s.open)
    ensures forall i, j | i in s.objs && j in s.objs && s.objs[i].fd.Some? && s.objs[i].fd == s.objs[j].fd :: i == j
  {
  }

  /** And once nothing is left to destroy, what exists is exactly what can be reached: closures form no
      cycle that would keep handles alive for ever. */
  lemma {:induction false} NothingLeaks(s: Loop, id: Id)
    requires Reachable(s) && id in s.objs
    requires forall i | i in s.objs :: Referenced(s, i)
    ensures Alive(s, id)
    decreases s.next - id
  {
    ReachableInv(s);
    if !Rooted(s, id) {
      assert Referenced(s, id);
      var t :| t in s.objs && s.objs[t].kind == Timer(Some(id));
      assert IsAimed(s, t);
      NothingLeaks(s, t);
    }
  }
}
