/** How an address chain can end without either callback. There are five such ends and no others; after
    each of them nothing more happens to the chain, whatever addresses are left. */
module ChainEnds {
  import opened LoopModel
  import opened LoopInvariant
  import opened LoopSteps
  import opened LoopRegistry
  import opened LoopCreation
  import opened LoopTheorems
  import opened LoopRemoval

  ghost predicate Unfinished(s: Loop, c: Chain) {
    c in s.chains && !s.chains[c].done
  }

  /** `id` was removed, or destroyed before it was ever added: it will not be dispatched again. */
  ghost predicate Gone(s: Loop, id: Id) {
    !Registered(s, id) && (id in s.added || id !in s.objs)
  }

  /** Neither callback of the chain ran, and its last attempt is gone. */
  ghost predicate Over(s: Loop, c: Chain) {
    Unfinished(s, c) && Gone(s, s.chains[c].cur)
  }

  /** `add` cannot register a handle without descriptor, one the kernel does not accept, or any at all if the
      loop has no epoll descriptor. */
  predicate Registrable(s: Loop, fd: Option<Fd>, a: Answers) {
    EPOLL in s.objs && s.objs[EPOLL].fd.Some? && fd.Some? && a.willing
  }

  /** The five silent ends of a chain: its attempt times out; the handler of its attempt closes without
      having run a callback; its next attempt cannot be constructed or registered; the program's own `add`
      fails; or the program drops the handle without adding it. */
  ghost predicate Silences(s: Loop, step: Step, c: Chain)
    requires Enabled(s, step)
  {
    && Unfinished(s, c)
    && var cur := s.chains[c].cur;
       match step
       case Fire => s.objs[s.ctl.hdl].kind == Timer(Some(cur)) && Registered(s, cur)
       case Return => s.ctl.hdl == cur && !s.ctl.pc.keep
       case TryNext(os, a) => CurrentKind(s).chain == c && !(os.NewFd? && Registrable(s, Some(os.fd), a))
       case AddHandle(id, _, a) => id == cur && !Registrable(s, s.objs[id].fd, a)
       case Destroy(id) => id == cur
       case _ => false
  }

  // ---------------------------------------------------------------------------------------------------
  // What is over stays over
  // ---------------------------------------------------------------------------------------------------

  lemma AddKeepsChainRecord(s: Loop, id: Id, timed: bool, a: Answers)
    requires id in s.objs && EPOLL in s.objs
    ensures Add(s, id, timed, a).chains == s.chains
  {
  }

  lemma DisableKeepsChainRecord(s: Loop, ctl: Control)
    ensures ctl.Run? ==> Disable(s, ctl.timer).chains == s.chains && Disable(s, ctl.timer).ctl == s.ctl
  {
  }

  /** No step touches a chain whose last attempt is not registered, be it gone or not yet added. */
  lemma StepKeepsEndedChain(s: Loop, step: Step, c: Chain)
    requires Inv(s) && Enabled(s, step) && c in s.chains && !Registered(s, s.chains[c].cur)
    ensures c in Apply(s, step).chains && Apply(s, step).chains[c] == s.chains[c]
  {
    hide FdInv, RegInv, TimerInv, LogInv, ChainInv, HistoryInv, DisconnectIsLast;
    hide Add, EpollDel, Disable, RunClosure, Referenced;
    ChainIsNumbered(s, c);
    if Connecting(s) {
      ActiveIsCurrent(s);
    }
    DisableKeepsChainRecord(s, s.ctl);
    match step
    case Return => RemovalKeepsHandles(s, s.ctl.fd);
    case Fire =>
      var closure := CurrentKind(s).closure;
      if closure.Some? {
        ClosureKeepsHandles(s, s.ctl.hdl, closure.value);
      }
    case ConnectReturns =>
      var h := s.ctl.hdl;
      var s1 := s.(objs := s.objs[h := s.objs[h].(kind := s.objs[h].kind.(connected := true))]);
      DisableKeepsChainRecord(s1, s.ctl);
    case AddHandle(id, timed, a) => AddKeepsChainRecord(s, id, timed, a);
    case TryNext(os, a) =>
      var k := CurrentKind(s);
      var timed := s.ctl.timer.Some? && s.ctl.timer.value in s.objs;
      AddKeepsChainRecord(NewAttempt(s, k.chain, s.chains[k.chain].len, k.pos + 1, os), s.next, timed, a);
    case _ =>
  }

  lemma AddCreatesOnlyNext(s: Loop, id: Id, timed: bool, a: Answers, h: Id)
    requires id in s.objs && EPOLL in s.objs && h !in s.objs && h != s.next
    ensures h !in Add(s, id, timed, a).objs
    ensures h !in s.added ==> h !in Add(s, id, timed, a).added
  {
  }

  /** No step brings back a handle that was destroyed, or adds it. */
  lemma StepKeepsDestroyed(s: Loop, step: Step, h: Id)
    requires Enabled(s, step) && h !in s.objs && h < s.next
    ensures h !in Apply(s, step).objs
    ensures h !in s.added ==> h !in Apply(s, step).added
  {
    hide Add, EpollDel, RunClosure;
    match step
    case AddHandle(id, timed, a) => AddCreatesOnlyNext(s, id, timed, a, h);
    case TryNext(os, a) =>
      var k := CurrentKind(s);
      var timed := s.ctl.timer.Some? && s.ctl.timer.value in s.objs;
      AddCreatesOnlyNext(NewAttempt(s, k.chain, s.chains[k.chain].len, k.pos + 1, os), s.next, timed, a, h);
    case Return => RemovalKeepsHandles(s, s.ctl.fd);
    case Fire =>
      var closure := CurrentKind(s).closure;
      if closure.Some? {
        ClosureKeepsHandles(s, s.ctl.hdl, closure.value);
      }
    case _ =>
  }

  lemma StepKeepsGone(s: Loop, step: Step, h: Id)
    requires Inv(s) && Enabled(s, step) && Gone(s, h) && h < s.next
    ensures Gone(Apply(s, step), h)
  {
    hide Inv;
    if h in s.added {
      StepKeepsRemoved(s, step, h);
    } else {
      StepKeepsDestroyed(s, step, h);
    }
  }

  lemma StepKeepsOver(s: Loop, step: Step, c: Chain)
    requires Inv(s) && Enabled(s, step) && Over(s, c)
    ensures Over(Apply(s, step), c) && Apply(s, step).chains[c] == s.chains[c]
  {
    hide Inv;
    ChainIsNumbered(s, c);
    StepKeepsEndedChain(s, step, c);
    StepKeepsGone(s, step, s.chains[c].cur);
  }

  lemma {:induction false} EndedChainStaysEnded(run: seq<Loop>, i: nat, j: nat, c: Chain)
    requires IsRun(run) && Inv(run[0]) && i <= j < |run| && Over(run[i], c)
    ensures Over(run[j], c) && run[j].chains[c] == run[i].chains[c]
  {
    hide Inv, Over;
    if i < j {
      EndedChainStaysEnded(run, i, j - 1, c);
      RunKeepsInv(run, j - 1);
      assert Next(run[j - 1], run[j]);
      var step :| Enabled(run[j - 1], step) && run[j] == Apply(run[j - 1], step);
      StepKeepsOver(run[j - 1], step, c);
    }
  }

  // ---------------------------------------------------------------------------------------------------
  // How it comes to be over
  // ---------------------------------------------------------------------------------------------------

  /** What one registration changes. */
  lemma RegistrationChanges(s: Loop, id: Id, timer: Option<Id>, willing: bool)
    requires id in s.objs
    requires s.objs[id].fd.Some? ==> var fd := s.objs[id].fd.value; fd !in s.reg && fd !in s.interest && fd in s.open
    ensures var s' := EpollAdd(s, id, timer, willing);
            && s' == s.(interest := s'.interest, reg := s'.reg)
            && (Registered(s', id) <==> willing && s.objs[id].fd.Some?)
            && (forall h | h != id :: Registered(s', h) == Registered(s, h))
            && (forall fd | s.objs[id].fd != Some(fd) ::
                  (fd in s'.reg <==> fd in s.reg) && (fd in s'.interest <==> fd in s.interest))
  {
  }

  /** A handle that was not added owns a descriptor that is open and not registered. */
  lemma NotYetRegistered(s: Loop, id: Id)
    requires Inv(s) && id in s.objs && id !in s.added
    ensures s.objs[id].fd.Some? ==> var fd := s.objs[id].fd.value; fd !in s.reg && fd !in s.interest && fd in s.open
    ensures forall fd | fd in s.reg || fd in s.interest :: fd in s.open
  {
    hide TimerInv, LogInv, ChainInv, HistoryInv, DisconnectIsLast;
  }

  lemma ArmChanges(s: Loop, id: Id, os: Os)
    requires Inv(s) && id in s.objs && OsCan(s, os)
    ensures var s', t := Arm(s, id, os), s.next;
            && s' == s.(objs := s'.objs, added := s.added + {id, t}, log := s'.log, next := s'.next,
                        open := s'.open, leaked := s'.leaked, opens := s'.opens)
            && s.open <= s'.open && t !in s.objs && s'.objs.Keys == s.objs.Keys + {t}
            && (forall h | h in s.objs :: s'.objs[h] == s.objs[h])
            && (forall h | h != t :: Registered(s', h) == Registered(s, h))
            && (s'.objs[t].fd.Some? ==> s'.objs[t].fd.value in s'.open && s'.objs[t].fd.value !in s.open)
  {
    hide RegInv, TimerInv, LogInv, ChainInv, HistoryInv, DisconnectIsLast;
    AddedAreOld(s);
  }

  lemma TimedAddChanges(s: Loop, id: Id, a: Answers)
    requires Inv(s) && id in s.objs && id !in s.added && OsCan(s, a.os) && EPOLL in s.objs && s.objs[EPOLL].fd.Some?
    ensures var s' := Add(s, id, true, a);
            && id in s'.added && id in s'.objs && s'.chains == s.chains
            && (Registered(s', id) <==> Registrable(s, s.objs[id].fd, a))
            && (forall h | h != id && h != s.next :: Registered(s', h) == Registered(s, h))
            && (forall h | h != id && h != s.next ::
                  (h in s'.objs <==> h in s.objs) && (h in s'.added <==> h in s.added))
  {
    hide Inv, EpollAdd, Registered, Arm;
    NotYetRegistered(s, id);
    var s2, t := Arm(s, id, a.os), s.next;
    ArmChanges(s, id, a.os);
    RegistrationChanges(s2, t, None, a.timerWilling);
    var s3 := EpollAdd(s2, t, None, a.timerWilling);
    RegistrationChanges(s3, id, Some(t), a.willing);
  }

  /** What one `add` changes. */
  lemma AddChanges(s: Loop, id: Id, timed: bool, a: Answers)
    requires Inv(s) && id in s.objs && id !in s.added && OsCan(s, a.os) && EPOLL in s.objs
    ensures var s' := Add(s, id, timed, a);
            && id in s'.added && id in s'.objs && s'.chains == s.chains
            && (Registered(s', id) <==> Registrable(s, s.objs[id].fd, a))
            && (forall h | h != id && h != s.next :: Registered(s', h) == Registered(s, h))
            && (forall h | h != id && h != s.next ::
                  (h in s'.objs <==> h in s.objs) && (h in s'.added <==> h in s.added))
  {
    hide Inv, EpollAdd;
    NotYetRegistered(s, id);
    InvMeansOld(s);
    if s.objs[EPOLL].fd.Some? {
      if timed {
        TimedAddChanges(s, id, a);
      } else {
        RegistrationChanges(s.(added := s.added + {id}), id, None, a.willing);
      }
    }
  }

  lemma AddEndsChain(s: Loop, id: Id, timed: bool, a: Answers, c: Chain)
    requires Inv(s) && Enabled(s, AddHandle(id, timed, a)) && !Over(s, c)
    ensures Over(Apply(s, AddHandle(id, timed, a)), c) <==> Silences(s, AddHandle(id, timed, a), c)
  {
    hide Inv, Add;
    AddChanges(s, id, timed, a);
    if c in s.chains {
      ChainIsNumbered(s, c);
    }
  }

  lemma TryNextEndsChain(s: Loop, os: Os, a: Answers, c: Chain)
    requires Inv(s) && Enabled(s, TryNext(os, a)) && !Over(s, c)
    ensures Over(Apply(s, TryNext(os, a)), c) <==> Silences(s, TryNext(os, a), c)
  {
    hide Inv, Add;
    var k := CurrentKind(s);
    var timed := s.ctl.timer.Some? && s.ctl.timer.value in s.objs;
    ActiveIsCurrent(s);
    NextAttemptKeepsInv(s, os);
    InvMeansOld(s);
    var bare := NewAttempt(s, k.chain, s.chains[k.chain].len, k.pos + 1, os);
    GotoCommutesWithAdd(bare, Closing, s.next, timed, a);
    AddChanges(Goto(bare, Closing), s.next, timed, a);
    if c in s.chains {
      ChainIsNumbered(s, c);
    }
  }

  lemma FireEndsChain(s: Loop, c: Chain)
    requires Inv(s) && Enabled(s, Fire) && !Over(s, c)
    ensures Over(Apply(s, Fire), c) <==> Silences(s, Fire, c)
  {
    hide TimerInv, LogInv, ChainInv, HistoryInv, DisconnectIsLast;
    var closure := CurrentKind(s).closure;
    if closure.Some? {
      ClosureRemovesTarget(s, closure.value);
      TargetWasAdded(s);
    }
  }

  lemma TargetWasAdded(s: Loop)
    requires Inv(s) && Enabled(s, Fire) && CurrentKind(s).closure.Some?
    ensures CurrentKind(s).closure.value in s.added
  {
    assert IsAimed(s, s.ctl.hdl);
  }

  lemma ReturnEndsChain(s: Loop, c: Chain)
    requires Inv(s) && Enabled(s, Return) && !Over(s, c)
    ensures Over(Apply(s, Return), c) <==> Silences(s, Return, c)
  {
    hide TimerInv, LogInv, ChainInv, HistoryInv, DisconnectIsLast;
    DispatchedIsRegistered(s);
  }

  lemma DestroyEndsChain(s: Loop, id: Id, c: Chain)
    requires Inv(s) && Enabled(s, Destroy(id)) && !Over(s, c)
    ensures Over(Apply(s, Destroy(id)), c) <==> Silences(s, Destroy(id), c)
  {
    hide Inv;
    assert !Registered(s, id);
  }

  lemma NewChainEndsNone(s: Loop, len: nat, os: Os, c: Chain)
    requires Inv(s) && Enabled(s, NewChain(len, os)) && !Over(s, c)
    ensures !Over(Apply(s, NewChain(len, os)), c)
  {
    hide Inv;
    InvMeansOld(s);
    if c in s.chains {
      ChainIsNumbered(s, c);
    }
  }

  lemma NewPlainEndsNone(s: Loop, os: Os, c: Chain)
    requires Inv(s) && Enabled(s, NewPlain(os)) && !Over(s, c)
    ensures !Over(Apply(s, NewPlain(os)), c)
  {
    hide Inv;
    if c in s.chains {
      ChainIsNumbered(s, c);
    }
  }

  /** The steps that neither create, register, remove nor destroy. */
  lemma OtherStepEndsNone(s: Loop, step: Step, c: Chain)
    requires Enabled(s, step) && !Over(s, c)
    requires !step.NewPlain? && !step.NewChain? && !step.AddHandle? && !step.TryNext?
    requires !step.Fire? && !step.Return? && !step.Destroy?
    ensures !Over(Apply(s, step), c)
  {
  }

  /** A chain comes to be over at exactly these steps. */
  lemma StepEndsChainIff(s: Loop, step: Step, c: Chain)
    requires Inv(s) && Enabled(s, step) && !Over(s, c)
    ensures Over(Apply(s, step), c) <==> Silences(s, step, c)
  {
    hide Inv, Enabled, Apply, Over;
    match step
    case NewPlain(os) => NewPlainEndsNone(s, os, c);
    case NewChain(len, os) => NewChainEndsNone(s, len, os, c);
    case AddHandle(id, timed, a) => AddEndsChain(s, id, timed, a, c);
    case TryNext(os, a) => TryNextEndsChain(s, os, a, c);
    case Fire => FireEndsChain(s, c);
    case Return => ReturnEndsChain(s, c);
    case Destroy(id) => DestroyEndsChain(s, id, c);
    case _ => OtherStepEndsNone(s, step, c);
  }

  // ---------------------------------------------------------------------------------------------------
  // Theorems
  // ---------------------------------------------------------------------------------------------------

  /** The step from `s` to `s'` is a silent end of `c`. */
  ghost predicate SilentStep(s: Loop, s': Loop, c: Chain) {
    exists step :: Enabled(s, step) && s' == Apply(s, step) && Silences(s, step, c)
  }

  /** A silent end is for ever: at no later moment has the connect or the fail callback run, and no further
      address has been tried. */
  lemma SilencedForever(run: seq<Loop>, i: nat, j: nat, c: Chain)
    requires IsRun(run) && Inv(run[0]) && i < j < |run| && SilentStep(run[i], run[i + 1], c)
    ensures Over(run[j], c)
    ensures Conclusions(run[j].log, c) == 0 && Tried(run[j].log, c) == Tried(run[i + 1].log, c)
  {
    hide Inv, Enabled, Apply, Over, Silences;
    RunKeepsInv(run, i);
    RunKeepsInv(run, i + 1);
    RunKeepsInv(run, j);
    var step :| Enabled(run[i], step) && run[i + 1] == Apply(run[i], step) && Silences(run[i], step, c);
    SilenceIsOver(run[i], step, c);
    EndedChainStaysEnded(run, i + 1, j, c);
    OverIsUnfinished(run[i + 1], c);
    OverIsUnfinished(run[j], c);
    HistoryOfChain(run[i + 1], c);
    HistoryOfChain(run[j], c);
  }

  lemma SilenceIsOver(s: Loop, step: Step, c: Chain)
    requires Inv(s) && Enabled(s, step) && Silences(s, step, c)
    ensures Over(Apply(s, step), c)
  {
    hide Inv, Enabled, Apply, Over, Silences;
    if Over(s, c) {
      StepKeepsOver(s, step, c);
    } else {
      StepEndsChainIff(s, step, c);
    }
  }

  lemma OverIsUnfinished(s: Loop, c: Chain)
    requires Over(s, c)
    ensures c in s.chains && !s.chains[c].done
  {
  }

  /** In every run: the last attempt of a chain whose callbacks did not run is gone exactly when one of the
      five silent ends has happened to the chain. */
  lemma {:induction false} OverIffSilenced(run: seq<Loop>, epfd: Option<Fd>, c: Chain)
    requires IsRun(run) && run[0] == Init(epfd)
    ensures Over(run[|run| - 1], c) <==> exists i: nat | i + 1 < |run| :: SilentStep(run[i], run[i + 1], c)
  {
    hide Inv, Next, Over, SilentStep;
    InitInv(epfd);
    if i: nat :| i + 1 < |run| && SilentStep(run[i], run[i + 1], c) {
      SilencedForever(run, i, |run| - 1, c);
    }
    if Over(run[|run| - 1], c) {
      BecameOver(run, epfd, |run| - 1, c);
    }
  }

  lemma {:induction false} BecameOver(run: seq<Loop>, epfd: Option<Fd>, n: nat, c: Chain)
    requires IsRun(run) && run[0] == Init(epfd) && n < |run| && Over(run[n], c)
    ensures exists i: nat | i + 1 < |run| :: SilentStep(run[i], run[i + 1], c)
  {
    hide Inv, Enabled, Apply, Over, Silences;
    if n == 0 {
      OverIsUnfinished(run[0], c);
      assert false;
    } else if Over(run[n - 1], c) {
      BecameOver(run, epfd, n - 1, c);
    } else {
      InitInv(epfd);
      RunKeepsInv(run, n - 1);
      assert Next(run[n - 1], run[n]);
      var step :| Enabled(run[n - 1], step) && run[n] == Apply(run[n - 1], step);
      StepEndsChainIff(run[n - 1], step, c);
      var i := n - 1;
      assert SilentStep(run[i], run[i + 1], c);
    }
  }

  /** Every timeout of a client attempt is a silent end: the target of a firing timer, if still registered,
      is the last attempt of a chain neither of whose callbacks ran. */
  lemma TimeoutSilencesChain(s: Loop, h: Id)
    requires Inv(s) && Enabled(s, Fire) && s.objs[s.ctl.hdl].kind == Timer(Some(h))
    requires Registered(s, h) && s.objs[h].kind.Client?
    ensures var c := s.objs[h].kind.chain; c in s.chains && s.chains[c].cur == h && Silences(s, Fire, c)
  {
    var t := s.ctl.hdl;
    assert IsAimed(s, t);
    TargetIsAnother(s);
    assert !Removed(s, h) && !Doomed(s, h) && !IsConnected(s, h);
    assert !Spent(s, h);
  }

  // ---------------------------------------------------------------------------------------------------
  // What is not over can still come to a callback
  // ---------------------------------------------------------------------------------------------------

  /** A connection that stands, or whose connect callback is running, belongs to a chain that is concluded. */
  ghost predicate ConnectedIsDone(s: Loop) {
    && (forall id | IsConnected(s, id) ::
          s.objs[id].kind.chain in s.chains && s.chains[s.objs[id].kind.chain].done)
    && (InHandler(s, InConnect) && s.objs[s.ctl.hdl].kind.Client? ==>
          s.objs[s.ctl.hdl].kind.chain in s.chains && s.chains[s.objs[s.ctl.hdl].kind.chain].done)
  }

  lemma AddKeepsConnected(s: Loop, id: Id, timed: bool, a: Answers)
    requires id in s.objs && EPOLL in s.objs && s.next !in s.objs
    ensures var s' := Add(s, id, timed, a);
            && s'.ctl == s.ctl && s'.chains == s.chains
            && (forall h | h in s.objs :: h in s'.objs && s'.objs[h] == s.objs[h])
            && (forall h | IsConnected(s', h) :: h in s.objs)
  {
  }

  lemma TryNextKeepsConnectedDone(s: Loop, os: Os, a: Answers)
    requires Inv(s) && ConnectedIsDone(s) && Enabled(s, TryNext(os, a))
    ensures ConnectedIsDone(Apply(s, TryNext(os, a)))
  {
    hide Inv, Add;
    ActiveIsCurrent(s);
    InvMeansOld(s);
    var k := CurrentKind(s);
    var len, timed := s.chains[k.chain].len, s.ctl.timer.Some? && s.ctl.timer.value in s.objs;
    var bare := NewAttempt(s, k.chain, len, k.pos + 1, os);
    NewAttemptConnectsNone(s, k.chain, len, k.pos + 1, os);
    MadeButNext(s, bare);
    AddKeepsConnected(bare, s.next, timed, a);
    ConnectedDoneCarries(s, bare, Apply(s, TryNext(os, a)), k.chain);
  }

  /** An attempt was made for an unfinished chain and added, and the handler is about to close. */
  lemma ConnectedDoneCarries(s: Loop, bare: Loop, s': Loop, c: Chain)
    requires ConnectedIsDone(s) && Unfinished(s, c)
    requires c in s'.chains && (forall d | d in s.chains && d != c :: d in s'.chains && s'.chains[d] == s.chains[d])
    requires forall h | h in s.objs :: h in bare.objs && bare.objs[h] == s.objs[h]
    requires forall h | h in bare.objs :: h in s'.objs && s'.objs[h] == bare.objs[h]
    requires forall h | IsConnected(bare, h) :: h in s.objs
    requires forall h | IsConnected(s', h) :: h in bare.objs
    requires s'.ctl.Run? ==> s'.ctl.pc == Closing
    ensures ConnectedIsDone(s')
  {
    forall h | IsConnected(s', h)
      ensures IsConnected(s, h) && s'.objs[h] == s.objs[h]
    {
      assert IsConnected(bare, h);
    }
  }

  lemma NewAttemptConnectsNone(s: Loop, c: Chain, len: nat, pos: nat, os: Os)
    requires s.next !in s.objs
    ensures var s' := NewAttempt(s, c, len, pos, os);
            && s'.chains == s.chains[c := Attempts(len, pos + 1, s.next, false)]
            && s'.next == s.next + 1 && s'.objs.Keys == s.objs.Keys + {s.next} && s'.ctl == s.ctl
            && (forall h | h in s.objs :: s'.objs[h] == s.objs[h])
            && (forall h | IsConnected(s', h) :: h in s.objs)
  {
  }

  lemma MadeButNext(s: Loop, s': Loop)
    requires Inv(s) && s'.next == s.next + 1 && s'.objs.Keys == s.objs.Keys + {s.next}
    ensures s'.next !in s'.objs
  {
  }

  lemma NewChainKeepsConnectedDone(s: Loop, len: nat, os: Os)
    requires Inv(s) && ConnectedIsDone(s) && Enabled(s, NewChain(len, os))
    ensures ConnectedIsDone(Apply(s, NewChain(len, os)))
  {
    hide FdInv, RegInv, TimerInv, LogInv, HistoryInv, DisconnectIsLast;
    InvMeansOld(s);
    assert s.nextChain !in s.chains;
  }

  lemma DestroyKeepsConnectedDone(s: Loop, id: Id)
    requires ConnectedIsDone(s) && Enabled(s, Destroy(id))
    ensures ConnectedIsDone(Apply(s, Destroy(id)))
  {
    var s' := Apply(s, Destroy(id));
    forall h | IsConnected(s', h)
      ensures IsConnected(s, h) && s'.objs[h] == s.objs[h]
    {
    }
  }

  lemma CallbackKeepsConnectedDone(s: Loop, step: Step)
    requires Inv(s) && ConnectedIsDone(s) && Enabled(s, step)
    requires step.GetSockOptFails? || step.Connects? || step.ConnectReturns? || step.LastFails? || step.FailReturns?
    ensures ConnectedIsDone(Apply(s, step))
  {
    hide Inv;
  }

  lemma StepKeepsConnectedDone(s: Loop, step: Step)
    requires Inv(s) && ConnectedIsDone(s) && Enabled(s, step)
    ensures ConnectedIsDone(Apply(s, step))
  {
    hide FdInv, RegInv, TimerInv, LogInv, ChainInv, HistoryInv, DisconnectIsLast, Add, EpollDel, RunClosure;
    InvMeansOld(s);
    match step
    case TryNext(os, a) => TryNextKeepsConnectedDone(s, os, a);
    case AddHandle(id, timed, a) => AddKeepsConnected(s, id, timed, a);
    case Return => RemovalKeepsHandles(s, s.ctl.fd);
    case Fire =>
      var closure := CurrentKind(s).closure;
      if closure.Some? {
        ClosureKeepsHandles(s, s.ctl.hdl, closure.value);
      }
    case NewChain(len, os) => NewChainKeepsConnectedDone(s, len, os);
    case Destroy(id) => DestroyKeepsConnectedDone(s, id);
    case GetSockOptFails => CallbackKeepsConnectedDone(s, step);
    case Connects => CallbackKeepsConnectedDone(s, step);
    case ConnectReturns => CallbackKeepsConnectedDone(s, step);
    case LastFails => CallbackKeepsConnectedDone(s, step);
    case FailReturns => CallbackKeepsConnectedDone(s, step);
    case _ =>
  }

  lemma {:induction false} RunKeepsConnectedDone(run: seq<Loop>, epfd: Option<Fd>, n: nat)
    requires IsRun(run) && run[0] == Init(epfd) && n < |run|
    ensures ConnectedIsDone(run[n])
  {
    hide Inv, Enabled, Apply;
    if n > 0 {
      RunKeepsConnectedDone(run, epfd, n - 1);
      InitInv(epfd);
      RunKeepsInv(run, n - 1);
      assert Next(run[n - 1], run[n]);
      var step :| Enabled(run[n - 1], step) && run[n] == Apply(run[n - 1], step);
      StepKeepsConnectedDone(run[n - 1], step);
    }
  }

  lemma RegisteredCanConclude(s: Loop, c: Chain)
    requires Reachable(s) && s.ctl.Idle? && Unfinished(s, c) && Registered(s, s.chains[c].cur)
    ensures var fd := s.objs[s.chains[c].cur].fd.value;
            && Enabled(s, Dispatch(fd))
            && var s' := Apply(s, Dispatch(fd));
               Enabled(s', Connects) && Conclusions(Apply(s', Connects).log, c) == 1
  {
    hide Inv, Reachable, Registered;
    StandsOnlyIfDone(s);
    ReachableInv(s);
    AttemptOfChain(s, c);
    LogSnoc(s.log, Connected(c, s.chains[c].cur), c);
  }

  /** The last attempt of an unfinished chain is gone, or cannot be registered because it or the loop has no
      descriptor. */
  ghost predicate Hopeless(s: Loop, c: Chain) {
    && Unfinished(s, c)
    && var cur := s.chains[c].cur;
       && !Registered(s, cur)
       && (cur in s.added || cur !in s.objs || s.objs[cur].fd.None? || !HasEpoll(s))
  }

  ghost predicate HasEpoll(s: Loop) {
    EPOLL in s.objs && s.objs[EPOLL].fd.Some?
  }

  lemma StepAddsOnly(s: Loop, step: Step, h: Id)
    requires Enabled(s, step) && h !in s.added && h < s.next && (step.AddHandle? ==> step.id != h)
    ensures h !in Apply(s, step).added
  {
    hide EpollDel, RunClosure, Referenced, Add;
    match step
    case AddHandle(id, timed, a) => AddAddsOnly(s, id, timed, a, h);
    case TryNext(os, a) =>
      var k := CurrentKind(s);
      var timed := s.ctl.timer.Some? && s.ctl.timer.value in s.objs;
      AddAddsOnly(NewAttempt(s, k.chain, s.chains[k.chain].len, k.pos + 1, os), s.next, timed, a, h);
    case Return => RemovalKeepsHandles(s, s.ctl.fd);
    case Fire =>
      var closure := CurrentKind(s).closure;
      if closure.Some? {
        ClosureKeepsHandles(s, s.ctl.hdl, closure.value);
      }
    case _ =>
  }

  lemma AddAddsOnly(s: Loop, id: Id, timed: bool, a: Answers, h: Id)
    requires id in s.objs && EPOLL in s.objs && h !in s.added && h != id && h != s.next
    ensures h !in Add(s, id, timed, a).added
  {
  }

  lemma AddedIfRegistered(s: Loop, h: Id)
    requires Inv(s) && h !in s.added
    ensures !Registered(s, h)
  {
  }

  lemma EpollStays(s: Loop, step: Step)
    requires Inv(s) && Enabled(s, step)
    ensures HasEpoll(Apply(s, step)) <==> HasEpoll(s)
  {
    hide Inv, Enabled, Apply;
    InvMeansOld(s);
    EpollNotDestroyed(s, step);
    StepKeepsHandle(s, step, EPOLL);
  }

  lemma EpollNotDestroyed(s: Loop, step: Step)
    requires Inv(s) && Enabled(s, step)
    ensures step != Destroy(EPOLL)
  {
    hide RegInv, TimerInv, LogInv, ChainInv, HistoryInv, DisconnectIsLast;
  }

  lemma StepKeepsHopeless(s: Loop, step: Step, c: Chain)
    requires Inv(s) && Enabled(s, step) && Hopeless(s, c)
    ensures Hopeless(Apply(s, step), c)
  {
    hide Inv, Enabled, Apply, Registered, HasEpoll, Silences;
    var cur := s.chains[c].cur;
    ChainIsNumbered(s, c);
    StepKeepsEndedChain(s, step, c);
    if Over(s, c) {
      StepKeepsOver(s, step, c);
    } else if step.AddHandle? && step.id == cur {
      UnregistrableIsSilent(s, step, c);
      StepEndsChainIff(s, step, c);
    } else if step == Destroy(cur) {
      UnregistrableIsSilent(s, step, c);
      StepEndsChainIff(s, step, c);
    } else {
      StepKeepsInv(s, step);
      StepAddsOnly(s, step, cur);
      AddedIfRegistered(Apply(s, step), cur);
      StepKeepsHandle(s, step, cur);
      EpollStays(s, step);
    }
  }

  lemma UnregistrableIsSilent(s: Loop, step: Step, c: Chain)
    requires Enabled(s, step) && Hopeless(s, c) && !Over(s, c)
    requires (step.AddHandle? && step.id == s.chains[c].cur) || step == Destroy(s.chains[c].cur)
    ensures Silences(s, step, c)
  {
  }

  lemma {:induction false} HopelessForever(run: seq<Loop>, n: nat, c: Chain)
    requires IsRun(run) && Inv(run[0]) && n < |run| && Hopeless(run[0], c)
    ensures Hopeless(run[n], c)
  {
    hide Inv, Hopeless, Enabled, Apply;
    if n > 0 {
      HopelessForever(run, n - 1, c);
      RunKeepsInv(run, n - 1);
      assert Next(run[n - 1], run[n]);
      var step :| Enabled(run[n - 1], step) && run[n] == Apply(run[n - 1], step);
      StepKeepsHopeless(run[n - 1], step, c);
    }
  }

  lemma ReachesHopeless(s: Loop, s': Loop, c: Chain)
    requires Inv(s) && Reach(s, s') && Hopeless(s, c)
    ensures Conclusions(s'.log, c) == 0
  {
    hide Inv, Hopeless, Next;
    var run :| IsRun(run) && run[0] == s && run[|run| - 1] == s';
    HopelessForever(run, |run| - 1, c);
    RunKeepsInv(run, |run| - 1);
    HopelessIsUnfinished(s', c);
    HistoryOfChain(s', c);
  }

  lemma HopelessIsUnfinished(s: Loop, c: Chain)
    requires Hopeless(s, c)
    ensures c in s.chains && !s.chains[c].done
  {
  }

  lemma ReachableOn(s: Loop, step: Step)
    requires Reachable(s) && Enabled(s, step)
    ensures Reachable(Apply(s, step))
  {
    hide Reach, Enabled, Apply, Init;
    var epfd :| Reach(Init(epfd), s);
    ReachStep(Init(epfd), s, step);
  }

  /** The program adds the attempt that it has not added yet. */
  lemma AddsAttempt(s: Loop, c: Chain) returns (s': Loop)
    requires Reachable(s) && s.ctl.Idle? && Unfinished(s, c) && !Hopeless(s, c) && !Registered(s, s.chains[c].cur)
    ensures Reachable(s') && Reach(s, s') && s'.ctl.Idle?
    ensures Unfinished(s', c) && Registered(s', s'.chains[c].cur)
  {
    hide Inv, Reachable, Add, Reach;
    ReachableInv(s);
    InvMeansOld(s);
    var cur, a := s.chains[c].cur, Answers(NoFd, false, true);
    var s1 := s.(ext := s.ext + {cur});
    assert Enabled(s, Keep(cur)) && Apply(s, Keep(cur)) == s1;
    ReachableOn(s, Keep(cur));
    ReachableInv(s1);
    AddChanges(s1, cur, false, a);
    s' := Apply(s1, AddHandle(cur, false, a));
    ReachableOn(s1, AddHandle(cur, false, a));
    ReachSelf(s);
    ReachStep(s, s, Keep(cur));
    ReachStep(s, s1, AddHandle(cur, false, a));
    AddKeepsPlace(s1, cur, a);
  }

  lemma AddKeepsPlace(s: Loop, id: Id, a: Answers)
    requires id in s.objs && EPOLL in s.objs
    ensures Add(s, id, false, a).ctl == s.ctl
  {
  }

  lemma Concluding(s: Loop, c: Chain)
    requires Reachable(s) && s.ctl.Idle? && Unfinished(s, c) && Registered(s, s.chains[c].cur)
    ensures exists s' :: Reach(s, s') && Conclusions(s'.log, c) == 1
  {
    hide Reachable, Reach, Enabled, Apply;
    RegisteredCanConclude(s, c);
    var fd := s.objs[s.chains[c].cur].fd.value;
    ReachSelf(s);
    ReachStep(s, s, Dispatch(fd));
    ReachStep(s, Apply(s, Dispatch(fd)), Connects);
  }

  /** Between dispatches an unfinished chain can still come to its callback exactly when it is not hopeless. */
  lemma CanStillConcludeIff(s: Loop, c: Chain)
    requires Reachable(s) && s.ctl.Idle? && Unfinished(s, c)
    ensures (exists s' :: Reach(s, s') && Conclusions(s'.log, c) == 1) <==> !Hopeless(s, c)
  {
    hide Inv, Reachable, Reach, Registered;
    ReachableInv(s);
    if Hopeless(s, c) {
      forall s' | Reach(s, s')
        ensures Conclusions(s'.log, c) == 0
      {
        ReachesHopeless(s, s', c);
      }
    } else if Registered(s, s.chains[c].cur) {
      Concluding(s, c);
    } else {
      var s1 := AddsAttempt(s, c);
      Concluding(s1, c);
      var s' :| Reach(s1, s') && Conclusions(s'.log, c) == 1;
      ReachTransitive(s, s1, s');
    }
  }

  lemma StandsOnlyIfDone(s: Loop)
    requires Reachable(s)
    ensures forall id | IsConnected(s, id) ::
              s.objs[id].kind.chain in s.chains && s.chains[s.objs[id].kind.chain].done
  {
    hide Next, Inv;
    var epfd :| Reach(Init(epfd), s);
    var run :| IsRun(run) && run[0] == Init(epfd) && run[|run| - 1] == s;
    RunKeepsConnectedDone(run, epfd, |run| - 1);
  }

  lemma AttemptOfChain(s: Loop, c: Chain)
    requires Inv(s) && Unfinished(s, c) && Registered(s, s.chains[c].cur)
    ensures var h := s.chains[c].cur;
            && h in s.objs && s.objs[h].kind.Client? && s.objs[h].kind.chain == c && s.objs[h].fd.Some?
            && s.objs[h].fd.value in s.reg && s.reg[s.objs[h].fd.value].hdl == h
    ensures Conclusions(s.log, c) == 0
  {
    hide FdInv, RegInv, TimerInv, LogInv, DisconnectIsLast;
  }
}
