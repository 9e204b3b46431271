/** Identities are not reused: a handle that was removed from the registry never comes back. */
module LoopRemoval {
  import opened LoopModel
  import opened LoopInvariant
  import opened LoopCreation
  import opened LoopTheorems

  lemma RegistrationOfAnother(s: Loop, id: Id, timer: Option<Id>, willing: bool, h: Id)
    requires id in s.objs && id != h && !Registered(s, h)
    ensures !Registered(EpollAdd(s, id, timer, willing), h)
    ensures EpollAdd(s, id, timer, willing).added == s.added
  {
  }

  lemma AddKeepsRemoved(s: Loop, id: Id, timed: bool, a: Answers, h: Id)
    requires id in s.objs && id !in s.added && EPOLL in s.objs && id != s.next
    requires s.next !in s.added && s.next !in s.objs && Removed(s, h)
    ensures Removed(Add(s, id, timed, a), h)
  {
    hide EpollAdd;
    var s1 := s.(added := s.added + {id});
    assert !Registered(s1, h);
    if timed && s.objs[EPOLL].fd.Some? {
      var s2 := Arm(s, id, a.os);
      assert !Registered(s2, h);
      RegistrationOfAnother(s2, s.next, None, a.timerWilling, h);
      RegistrationKeepsObjects(s2, s.next, None, a.timerWilling);
      RegistrationOfAnother(EpollAdd(s2, s.next, None, a.timerWilling), id, Some(s.next), a.willing, h);
    } else if s.objs[EPOLL].fd.Some? {
      RegistrationOfAnother(s1, id, None, a.willing, h);
    }
  }

  lemma RemovalKeepsRemoved(s: Loop, fd: Fd, h: Id)
    requires Removed(s, h)
    ensures Removed(EpollDel(s, fd), h)
  {
  }

  lemma DisableKeepsRemoved(s: Loop, timer: Option<Id>, h: Id)
    requires Removed(s, h)
    ensures Removed(Disable(s, timer), h)
  {
  }

  lemma TryNextKeepsRemoved(s: Loop, os: Os, a: Answers, h: Id)
    requires Inv(s) && Removed(s, h) && Enabled(s, TryNext(os, a))
    ensures Removed(Apply(s, TryNext(os, a)), h)
  {
    hide FdInv, RegInv, TimerInv, LogInv, ChainInv, HistoryInv, DisconnectIsLast, Add;
    AddedAreOld(s);
    var k := CurrentKind(s);
    var timed := s.ctl.timer.Some? && s.ctl.timer.value in s.objs;
    var s1 := NewAttempt(s, k.chain, s.chains[k.chain].len, k.pos + 1, os);
    assert Removed(s1, h);
    AddKeepsRemoved(s1, s.next, timed, a, h);
  }

  lemma ClosureKeepsRemoved(s: Loop, t: Id, x: Id, h: Id)
    requires x in s.objs && Removed(s, h)
    ensures Removed(RunClosure(s, t, x), h)
  {
    if s.objs[x].fd.Some? {
      RemovalKeepsRemoved(s, s.objs[x].fd.value, h);
    }
  }

  /** A handle that was removed is never registered again. */
  lemma StepKeepsRemoved(s: Loop, step: Step, h: Id)
    requires Inv(s) && Removed(s, h) && Enabled(s, step)
    ensures Removed(Apply(s, step), h)
  {
    hide FdInv, RegInv, TimerInv, LogInv, ChainInv, HistoryInv, DisconnectIsLast, Add, EpollDel, Disable, RunClosure;
    AddedAreOld(s);
    match step
    case AddHandle(id, timed, a) => AddKeepsRemoved(s, id, timed, a, h);
    case TryNext(os, a) => TryNextKeepsRemoved(s, os, a, h);
    case Return => RemovalKeepsRemoved(s, s.ctl.fd, h);
    case Fire =>
      var closure := CurrentKind(s).closure;
      if closure.Some? {
        ClosureKeepsRemoved(s, s.ctl.hdl, closure.value, h);
      }
    case GetSockOptFails => DisableKeepsRemoved(s, s.ctl.timer, h);
    case ConnectReturns =>
      var x := s.ctl.hdl;
      var s1 := s.(objs := s.objs[x := s.objs[x].(kind := s.objs[x].kind.(connected := true))]);
      DisableKeepsRemoved(s1, s.ctl.timer, h);
    case FailReturns => DisableKeepsRemoved(s, s.ctl.timer, h);
    case _ =>
  }

  lemma {:induction false} RemovedForever(run: seq<Loop>, i: nat, j: nat, h: Id)
    requires IsRun(run) && Inv(run[0]) && i <= j < |run| && Removed(run[i], h)
    ensures Removed(run[j], h)
  {
    hide Inv, Removed;
    if i < j {
      RemovedForever(run, i, j - 1, h);
      RunKeepsInv(run, j - 1);
      assert Next(run[j - 1], run[j]);
      var step :| Enabled(run[j - 1], step) && run[j] == Apply(run[j - 1], step);
      StepKeepsRemoved(run[j - 1], step, h);
    }
  }

  lemma KeyedByOwn(s: Loop, fd: Fd)
    requires Inv(s) && fd in s.reg
    ensures Registered(s, s.reg[fd].hdl) && s.objs[s.reg[fd].hdl].fd == Some(fd) && s.reg[fd].hdl in s.added
  {
  }
}
