/** The events of a batch that may reach another handle than they were raised for do so in some service of the
    batch: the timer of the handle removes it, a later handler lets the program destroy it and reuse its
    number, and nothing else happens before the event is looked up. */
module StrayEvents {
  import opened LoopModel
  import opened LoopInvariant
  import opened LoopSteps
  import opened LoopObjects
  import opened LoopCreation
  import opened LoopTheorems
  import opened StaleEvents

  // ---------------------------------------------------------------------------------------------------
  // Serving an event without any doing of the program
  // ---------------------------------------------------------------------------------------------------

  lemma Takes(b: Loop, s: Loop, step: Step)
    requires Leads(b, s) && Good(s) && Serving(s, step)
    ensures Leads(b, Apply(s, step)) && Good(Apply(s, step))
  {
    hide Good, Leads, Enabled, Apply;
    LeadsOn(b, s, step);
    StepIsGood(s, step);
  }

  /** A handler that calls the program and has come to `pc`. */
  ghost predicate At(s: Loop, pc: Pc) {
    InHandler(s, pc) && !s.objs[s.ctl.hdl].kind.Timer?
  }

  lemma Passes(s: Loop)
    requires At(s, Enter)
    ensures Serving(s, Pass) && Apply(s, Pass) == s.(ctl := s.ctl.(pc := Open)) && At(Apply(s, Pass), Open)
  {
  }

  lemma Keeps(s: Loop)
    requires At(s, Open)
    ensures Serving(s, Serve) && Apply(s, Serve) == s.(ctl := s.ctl.(pc := Leave(true)))
    ensures Serving(Apply(s, Serve), Return) && Apply(Apply(s, Serve), Return) == s.(ctl := Idle)
  {
  }

  lemma Fires(s: Loop)
    requires Good(s) && InHandler(s, Enter) && s.objs[s.ctl.hdl].kind.Timer?
    ensures Serving(s, Fire)
    ensures Apply(s, Fire).objs == s.objs && Apply(s, Fire).ctl == s.ctl.(pc := Leave(false))
  {
    hide FdInv, RegInv, LogInv, ChainInv, HistoryInv, DisconnectIsLast;
    if s.objs[s.ctl.hdl].kind.closure.Some? {
      assert IsAimed(s, s.ctl.hdl);
      ClosureKeepsHandles(s, s.ctl.hdl, s.objs[s.ctl.hdl].kind.closure.value);
    }
  }

  lemma Returns(s: Loop)
    requires s.ctl.Run? && s.ctl.pc == Leave(false)
    ensures Serving(s, Return) && Apply(s, Return).objs == s.objs && Apply(s, Return).ctl.Idle?
  {
  }

  lemma Entered(s: Loop, fd: Fd)
    requires Good(s) && s.ctl.Idle?
    ensures var s1 := Apply(s, Dispatch(fd));
            && Good(s1) && s1.objs == s.objs && s1.reg == s.reg && s1.next == s.next
            && if fd in s.reg then InHandler(s1, Enter) && s1.ctl == Run(fd, s.reg[fd].hdl, s.reg[fd].timer, Enter)
               else s1 == s
  {
    hide TimerFacts, TimerInv, LogInv, ChainInv, HistoryInv, DisconnectIsLast;
    Dispatched(s, fd);
    if fd in s.reg {
      HandlerAt(s, fd);
    }
  }

  /** A service in which the program does nothing destroys nothing and registers nothing. */
  lemma ServedQuietly(s: Loop, fd: Fd) returns (s': Loop)
    requires Good(s) && s.ctl.Idle?
    ensures Served(s, fd, s') && s'.objs == s.objs
    ensures forall f | f in s'.reg :: f in s.reg && s'.reg[f] == s.reg[f]
  {
    hide Inv, TimerFacts, Leads, Enabled, Apply;
    Dispatched(s, fd);
    Entered(s, fd);
    var s1 := Apply(s, Dispatch(fd));
    LeadsSelf(s1);
    if fd !in s.reg {
      s' := s1;
    } else if s1.objs[s1.ctl.hdl].kind.Timer? {
      Fires(s1);
      Takes(s1, s1, Fire);
      var s2 := Apply(s1, Fire);
      Returns(s2);
      Takes(s1, s2, Return);
      s' := Apply(s2, Return);
      EventRegisters(s, fd, s');
    } else {
      Passes(s1);
      Takes(s1, s1, Pass);
      var s2 := Apply(s1, Pass);
      Keeps(s2);
      Takes(s1, s2, Serve);
      Takes(s1, Apply(s2, Serve), Return);
      s' := Apply(Apply(s2, Serve), Return);
    }
  }

  // ---------------------------------------------------------------------------------------------------
  // A callback in which the program reuses a number
  // ---------------------------------------------------------------------------------------------------

  lemma Drops(s: Loop, id: Id)
    requires At(s, Open) && id in s.ext && id != EPOLL
    ensures Serving(s, Drop(id)) && Apply(s, Drop(id)) == s.(ext := s.ext - {id})
  {
  }

  lemma Destroys(s: Loop, id: Id)
    requires At(s, Open) && id in s.objs && !Referenced(s, id)
    ensures Serving(s, Destroy(id)) && Apply(s, Destroy(id)) == Destroyed(s, id) && At(Destroyed(s, id), Open)
  {
  }

  /** A removed handle that no timer is aimed at is destroyed once the program lets go of it. */
  lemma LetGo(b: Loop, s: Loop, id: Id) returns (s': Loop)
    requires Leads(b, s) && Good(s) && At(s, Open)
    requires id in s.objs && id in s.added && id != EPOLL && !Registered(s, id)
    requires forall t | t in s.objs :: s.objs[t].kind != Timer(Some(id))
    ensures Leads(b, s') && Good(s') && At(s', Open)
    ensures s'.objs == s.objs - {id} && s'.reg == s.reg && s'.added == s.added && s'.ctl == s.ctl && s'.next == s.next
    ensures s.objs[id].fd.Some? ==> s.objs[id].fd.value !in s'.open
  {
    hide Good, Leads, Serving;
    var s1 := s;
    if id in s.ext {
      Drops(s, id);
      Takes(b, s, Drop(id));
      s1 := s.(ext := s.ext - {id});
    }
    NotReferenced(s1, id);
    Destroys(s1, id);
    Takes(b, s1, Destroy(id));
    s' := Destroyed(s1, id);
  }

  lemma NotReferenced(s: Loop, id: Id)
    requires Good(s) && At(s, Open) && id in s.objs && !Registered(s, id) && id !in s.ext
    requires forall t | t in s.objs :: s.objs[t].kind != Timer(Some(id))
    ensures !Referenced(s, id)
  {
    hide TimerFacts, TimerInv, LogInv, ChainInv, HistoryInv, DisconnectIsLast;
    DispatchedIsRegistered(s);
    if fd :| fd in s.reg && s.reg[fd].hdl == id {
      HandlerAt(s, fd);
    }
  }

  lemma Makes(s: Loop, fd: Fd)
    requires Good(s) && At(s, Open) && fd !in s.open
    ensures Serving(s, NewPlain(NewFd(fd)))
    ensures var s' := Apply(s, NewPlain(NewFd(fd)));
            && s' == Create(s, Plain, NewFd(fd)).(ext := s.ext + {s.next}) && At(s', Open)
            && s'.objs == s.objs[s.next := Handle(Some(fd), Plain)] && s.next !in s.objs && s.next !in s.added
  {
    hide TimerFacts, TimerInv, LogInv, ChainInv, HistoryInv, DisconnectIsLast;
    InvMeansOld(s);
  }

  /** The kernel accepts the handle. */
  const ACCEPTED: Answers := Answers(NoFd, false, true)

  lemma Registers(s: Loop, id: Id, fd: Fd)
    requires Good(s) && At(s, Open) && id in s.objs && id in s.ext && id !in s.added
    requires s.objs[id].fd == Some(fd) && fd !in s.reg
    ensures Serving(s, AddHandle(id, false, ACCEPTED))
    ensures var s' := Apply(s, AddHandle(id, false, ACCEPTED));
            && s'.objs == s.objs && s'.ctl == s.ctl && s'.added == s.added + {id} && s'.next == s.next
            && s'.reg == s.reg[fd := Entry(id, None)] && At(s', Open)
  {
    hide TimerInv, LogInv, ChainInv, HistoryInv, DisconnectIsLast;
    DispatchedIsRegistered(s);
    InvMeansOld(s);
    OwnersAreOld(s);
    assert s.ctl.fd in s.reg;
  }

  /** The program makes a handle that is given the number `fd` and adds it. */
  lemma Reuses(b: Loop, s: Loop, fd: Fd) returns (s': Loop)
    requires Leads(b, s) && Good(s) && At(s, Open) && fd !in s.open && fd !in s.reg
    ensures Leads(b, s') && Good(s') && At(s', Open) && s'.ctl == s.ctl
    ensures s'.objs == s.objs[s.next := Handle(Some(fd), Plain)] && s.next !in s.objs
    ensures s'.reg == s.reg[fd := Entry(s.next, None)] && s.next in s'.added
  {
    hide Good, Leads, Enabled, Apply;
    Makes(s, fd);
    Takes(b, s, NewPlain(NewFd(fd)));
    var s1 := Apply(s, NewPlain(NewFd(fd)));
    Registers(s1, s.next, fd);
    Takes(b, s1, AddHandle(s.next, false, ACCEPTED));
    s' := Apply(s1, AddHandle(s.next, false, ACCEPTED));
  }

  /** A handle that was removed, with the timer that was aimed at it, and the number it still owns. */
  ghost predicate Reusable(s: Loop, t: Id, h: Id, f: Fd) {
    && h in s.objs && s.objs[h].fd == Some(f) && f !in s.reg
    && h in s.added && !Registered(s, h) && h != EPOLL
    && t in s.added && !Registered(s, t) && t != EPOLL && t != h
    && (t in s.objs ==> s.objs[t].kind.Timer?)
    && (forall t' | t' in s.objs && s.objs[t'].kind == Timer(Some(h)) :: t' == t)
  }

  /** The callback in which the number of a reusable handle comes into other hands. */
  lemma ReusedInCallback(b: Loop, s: Loop, t: Id, h: Id, f: Fd) returns (s': Loop)
    requires Leads(b, s) && Good(s) && At(s, Open) && Reusable(s, t, h, f)
    ensures Leads(b, s') && Good(s') && At(s', Open) && s'.ctl == s.ctl
    ensures s'.objs == (s.objs - {t} - {h})[s.next := Handle(Some(f), Plain)] && s.next !in s.objs
    ensures s'.reg == s.reg[f := Entry(s.next, None)] && s.next in s'.added
  {
    hide Inv, TimerFacts, Leads;
    InvMeansOld(s);
    var s1 := s;
    if t in s.objs {
      TimersAreNotAimedAt(s, t);
      s1 := LetGo(b, s, t);
    } else {
      assert s.objs - {t} == s.objs;
    }
    assert s1.objs == s.objs - {t};
    assert forall t' | t' in s1.objs :: s1.objs[t'] == s.objs[t'];
    var s2 := LetGo(b, s1, h);
    s' := Reuses(b, s2, f);
  }

  lemma TimersAreNotAimedAt(s: Loop, t: Id)
    requires Good(s) && t in s.objs && s.objs[t].kind.Timer?
    ensures forall t' | t' in s.objs :: s.objs[t'].kind != Timer(Some(t))
  {
    hide FdInv, RegInv, LogInv, ChainInv, HistoryInv, DisconnectIsLast;
    forall t' | t' in s.objs
      ensures s.objs[t'].kind != Timer(Some(t))
    {
      assert IsAimed(s, t') <==> s.objs[t'].kind.Timer? && s.objs[t'].kind.closure.Some?;
    }
  }

  /** A service with such a callback. */
  lemma ServedReusing(s: Loop, fd: Fd, t: Id, h: Id, f: Fd) returns (s': Loop)
    requires Good(s) && s.ctl.Idle? && CallsProgram(s, fd) && Reusable(s, t, h, f)
    ensures Served(s, fd, s') && s.next !in s.objs && s.next in s'.added
    ensures s'.objs == (s.objs - {t} - {h})[s.next := Handle(Some(f), Plain)]
    ensures s'.reg == s.reg[f := Entry(s.next, None)]
  {
    hide Inv, TimerFacts, Leads, Enabled, Apply, Serving;
    Dispatched(s, fd);
    Entered(s, fd);
    var s1 := Apply(s, Dispatch(fd));
    LeadsSelf(s1);
    Passes(s1);
    Takes(s1, s1, Pass);
    var s2 := Apply(s1, Pass);
    var s3 := ReusedInCallback(s1, s2, t, h, f);
    Keeps(s3);
    Takes(s1, s3, Serve);
    Takes(s1, Apply(s3, Serve), Return);
    s' := Apply(Apply(s3, Serve), Return);
  }

  // ---------------------------------------------------------------------------------------------------
  // Services of a batch
  // ---------------------------------------------------------------------------------------------------

  /** Of the events still to be served, other than `x`: the handles they were raised for exist, and the
      numbers of those that have timed out are in nobody's hands. */
  ghost predicate Quiet(states: seq<Loop>, events: seq<Fd>, x: int)
    requires Batch(states, events)
  {
    forall j: nat | |states| - 1 <= j < |events| && j != x :: StillQuiet(states, events, j)
  }

  ghost predicate StillQuiet(states: seq<Loop>, events: seq<Fd>, j: nat)
    requires Batch(states, events) && |states| - 1 <= j < |events|
  {
    var s, s' := states[0], states[|states| - 1];
    && events[j] in s.reg && s.reg[events[j]].hdl in s'.objs
    && (AimedBefore(s, events, j, |states| - 1) ==> events[j] !in s'.reg)
  }

  lemma BatchOn(states: seq<Loop>, events: seq<Fd>, s': Loop)
    requires Batch(states, events) && |states| <= |events|
    requires Served(states[|states| - 1], events[|states| - 1], s')
    ensures Batch(states + [s'], events)
  {
    hide Good, Served;
    ServesOneMore(states, events, s');
  }

  /** Whether event `j` is aimed at before `a + 1` is a matter of event `a`. */
  lemma AimedBeforeNext(s: Loop, events: seq<Fd>, j: nat, a: nat)
    requires a < |events| && j < |events|
    ensures AimedBefore(s, events, j, a + 1) <==> AimedBefore(s, events, j, a) || Aims(s, events, a, j)
  {
    if Aims(s, events, a, j) {
      assert a < a + 1;
    }
    if l: nat :| l < a && Aims(s, events, l, j) {
      assert l < a + 1;
    }
  }

  /** The next event is served, and the program does nothing. */
  lemma ServesNext(states: seq<Loop>, events: seq<Fd>, x: int) returns (longer: seq<Loop>)
    requires Batch(states, events) && |states| <= |events| && Quiet(states, events, x)
    ensures |longer| == |states| + 1 && longer[..|states|] == states
    ensures Batch(longer, events) && Quiet(longer, events, x)
    ensures longer[|states|].objs == states[|states| - 1].objs
  {
    hide Good, Served, Aims, Removed;
    var a := |states| - 1;
    BatchState(states, events, a);
    var s' := ServedQuietly(states[a], events[a]);
    BatchOn(states, events, s');
    longer := states + [s'];
    forall j: nat | a + 1 <= j < |events| && j != x
      ensures StillQuiet(longer, events, j)
    {
      assert StillQuiet(states, events, j);
      AimedBeforeNext(states[0], events, j, a);
      if Aims(states[0], events, a, j) && !AimedBefore(states[0], events, j, a) {
        TimedOutIsVacant(longer, events, j, a);
      }
    }
  }

  lemma TimedOutIsVacant(states: seq<Loop>, events: seq<Fd>, j: nat, a: nat)
    requires Batch(states, events) && a < j < |events| && a + 1 < |states|
    requires events[j] in states[0].reg && Aims(states[0], events, a, j) && !AimedBefore(states[0], events, j, a)
    ensures events[j] !in states[a + 1].reg
  {
    hide Inv, TimerFacts, Served, Removed;
    Delivery(states, events, j, a);
    HitIff(states, events, j, a);
    BatchState(states, events, a);
    assert Served(states[a], events[a], states[a + 1]);
    EventAndEntry(states[a], events[a], states[a + 1], events[j]);
  }

  lemma {:induction false} ServesOn(states: seq<Loop>, events: seq<Fd>, x: int, b: nat) returns (longer: seq<Loop>)
    requires Batch(states, events) && |states| - 1 <= b <= |events| && Quiet(states, events, x)
    ensures |longer| == b + 1 && longer[..|states|] == states && Batch(longer, events) && Quiet(longer, events, x)
    decreases b - |states|
  {
    hide Batch, Quiet;
    if |states| == b + 1 {
      longer := states;
    } else {
      var one := ServesNext(states, events, x);
      longer := ServesOn(one, events, x, b);
    }
  }

  lemma BeginQuietly(s: Loop, events: seq<Fd>)
    requires Good(s) && IsBatch(s, events)
    ensures Batch([s], events) && Quiet([s], events, -1)
  {
    hide Good, Served, Aims;
    assert Batch([s], events);
    forall j: nat | 0 <= j < |events|
      ensures StillQuiet([s], events, j)
    {
      Raised(s, events, j);
    }
  }

  /** The number of a handle that has timed out can come into other hands at event `i`. */
  lemma TimedOutIsReusable(states: seq<Loop>, events: seq<Fd>, l: nat, i: nat, k: nat)
    requires Batch(states, events) && |states| == i + 1 && l < i < k < |events| && Aims(states[0], events, l, k)
    requires Quiet(states, events, i)
    ensures events[l] in states[0].reg && events[k] in states[0].reg
    ensures Reusable(states[i], states[0].reg[events[l]].hdl, states[0].reg[events[k]].hdl, events[k])
  {
    hide Inv, TimerFacts, Served;
    var s, s' := states[0], states[i];
    Raised(s, events, k);
    Raised(s, events, l);
    var t, h := s.reg[events[l]].hdl, s.reg[events[k]].hdl;
    assert StillQuiet(states, events, k);
    Delivery(states, events, k, i);
    BatchState(states, events, i);
    BatchHandles(states, events, i, h);
    TimerWasServed(states, events, l, k, i);
    NotEpoll(s, events[k]);
    NotEpoll(s, events[l]);
    if t in s'.objs {
      BatchHandles(states, events, i, t);
    }
    forall t' | t' in s'.objs && s'.objs[t'].kind == Timer(Some(h))
      ensures t' == t
    {
      BatchAimers(states, events, i, t', h);
      AimedIsLive(s, t', h);
      AimedIsLive(s, t, h);
    }
  }

  lemma NotEpoll(s: Loop, fd: Fd)
    requires Inv(s) && fd in s.reg
    ensures s.reg[fd].hdl != EPOLL
  {
  }

  lemma TimerWasServed(states: seq<Loop>, events: seq<Fd>, l: nat, k: nat, i: nat)
    requires Batch(states, events) && l < i < |states| && l < k < |events| && Aims(states[0], events, l, k)
    ensures Removed(states[i], states[0].reg[events[l]].hdl)
  {
    hide Inv, TimerFacts, Served, Removed;
    TimerWaits(states, events, l, k, l);
    BatchState(states, events, l);
    assert Served(states[l], events[l], states[l + 1]);
    EventRemovesTimer(states[l], events[l], states[l + 1]);
    BatchRemoved(states, events, l + 1, i, states[0].reg[events[l]].hdl);
  }

  /** Under `f` is a handle that no timer is aimed at and that is not the one that was there at first. */
  ghost predicate InOtherHands(s: Loop, s': Loop, f: Fd) {
    && Strayed(s, s', f) && CallsProgram(s', f) && s'.reg[f].hdl in s'.added
    && forall t | t in s'.objs :: s'.objs[t].kind != Timer(Some(s'.reg[f].hdl))
  }

  /** Event `i` is served by a handler that calls the program, which reuses the number of event `k`. */
  lemma ServesReusing(states: seq<Loop>, events: seq<Fd>, l: nat, i: nat, k: nat) returns (longer: seq<Loop>)
    requires Batch(states, events) && |states| == i + 1 && l < i < k < |events| && Aims(states[0], events, l, k)
    requires CallsProgram(states[i], events[i]) && Quiet(states, events, i)
    ensures |longer| == i + 2 && longer[0] == states[0] && Batch(longer, events) && Quiet(longer, events, k)
    ensures InOtherHands(states[0], longer[i + 1], events[k])
  {
    hide Good, Served, Aims, Removed, CallsProgram, Reusable, MayCall;
    var s := states[0];
    BatchState(states, events, i);
    TimedOutIsReusable(states, events, l, i, k);
    var t, h := s.reg[events[l]].hdl, s.reg[events[k]].hdl;
    var s' := ServedReusing(states[i], events[i], t, h, events[k]);
    BatchOn(states, events, s');
    longer := states + [s'];
    CallMeansMayCall(states, events, i);
    BatchState(longer, events, i + 1);
    NewIsInOtherHands(s, states[i], s', t, h, events[k]);
    forall j: nat | i + 1 <= j < |events| && j != k
      ensures StillQuiet(longer, events, j)
    {
      assert StillQuiet(states, events, j);
      AimedBeforeNext(s, events, j, i);
      CallersDoNotAim(s, events, i, j);
      Apart(s, events, l, k, j);
    }
  }

  lemma NewIsInOtherHands(s: Loop, s1: Loop, s': Loop, t: Id, h: Id, f: Fd)
    requires Good(s) && Good(s1) && f in s.reg && s.reg[f].hdl == h && s.next <= s1.next
    requires s1.next !in s1.objs && s1.next in s'.added
    requires s'.objs == (s1.objs - {t} - {h})[s1.next := Handle(Some(f), Plain)]
    requires s'.reg == s1.reg[f := Entry(s1.next, None)]
    ensures InOtherHands(s, s', f)
  {
    hide Inv, TimerFacts;
    HandlerAt(s, f);
    forall t' | t' in s'.objs
      ensures s'.objs[t'].kind != Timer(Some(s1.next))
    {
      if t' in s1.objs && s1.objs[t'].kind == Timer(Some(s1.next)) {
        AimedIsLive(s1, t', s1.next);
        assert false;
      }
    }
  }

  lemma CallersDoNotAim(s: Loop, events: seq<Fd>, i: nat, j: nat)
    requires i < |events| && j < |events| && MayCall(s, events, i)
    ensures !Aims(s, events, i, j)
  {
  }

  /** Different events were raised for different handles. */
  lemma Apart(s: Loop, events: seq<Fd>, l: nat, k: nat, j: nat)
    requires Good(s) && IsBatch(s, events) && l < |events| && k < |events| && j < |events| && j != k && j != l
    ensures events[l] in s.reg && events[k] in s.reg && events[j] in s.reg
    ensures s.reg[events[j]].hdl != s.reg[events[l]].hdl && s.reg[events[j]].hdl != s.reg[events[k]].hdl
  {
    hide Good;
    Raised(s, events, l);
    Raised(s, events, k);
    Raised(s, events, j);
    assert if j < l then events[j] != events[l] else events[l] != events[j];
    assert if j < k then events[j] != events[k] else events[k] != events[j];
  }

  lemma {:induction false} StaysInOtherHands(states: seq<Loop>, events: seq<Fd>, k: nat, a: nat, b: nat)
    requires Batch(states, events) && a <= b <= k < |events| && b < |states|
    requires InOtherHands(states[0], states[a], events[k])
    ensures InOtherHands(states[0], states[b], events[k])
  {
    hide Inv, TimerFacts, Served;
    if a < b {
      StaysInOtherHands(states, events, k, a, b - 1);
      var s, s', f := states[b - 1], states[b], events[k];
      BatchState(states, events, b - 1);
      BatchState(states, events, b);
      assert Served(s, events[b - 1], s');
      EventAndEntry(s, events[b - 1], s', f);
      AddedStay(s, events[b - 1], s');
      forall t | t in s'.objs
        ensures s'.objs[t].kind != Timer(Some(s.reg[f].hdl))
      {
        if s'.objs[t].kind == Timer(Some(s.reg[f].hdl)) {
          EventAndAimers(s, events[b - 1], s', t, s.reg[f].hdl);
          assert false;
        }
      }
    }
  }

  lemma AddedStay(s: Loop, fd: Fd, s': Loop)
    requires Good(s) && Served(s, fd, s')
    ensures s.added <= s'.added
  {
    hide Good, IsService;
    var run := ServiceRun(s, fd, s');
  }

  // ---------------------------------------------------------------------------------------------------
  // What may happen does happen in some service
  // ---------------------------------------------------------------------------------------------------

  /** An event that may come to a handler that calls the program does so in a service that leaves the later
      events alone. */
  lemma {:induction false} CallHappens(s: Loop, events: seq<Fd>, m: nat) returns (states: seq<Loop>)
    requires Good(s) && IsBatch(s, events) && m < |events| && MayCall(s, events, m)
    ensures |states| == m + 1 && states[0] == s && Batch(states, events) && Quiet(states, events, m)
    ensures CallsProgram(states[m], events[m])
    decreases m, 1
  {
    hide Good, IsBatch, Batch, Quiet, Aims;
    if AimedBefore(s, events, m, m) {
      var l: nat :| l < m && Aims(s, events, l, m);
      var i := CallBetween(s, events, l, m);
      states := StrayHappens(s, events, l, i, m);
    } else {
      BeginQuietly(s, events);
      var begun := ServesOn([s], events, -1, m);
      states := begun;
      assert states[0] == states[..1][0] == s;
      LessQuiet(states, events, m);
      NotAimedIsDelivered(states, events, m);
    }
  }

  lemma CallBetween(s: Loop, events: seq<Fd>, l: nat, m: nat) returns (i: nat)
    requires m <= |events| && CalledBetween(s, events, l, m)
    ensures l < i < m && MayCall(s, events, i)
  {
    i :| l < i < m && MayCall(s, events, i);
  }

  lemma LessQuiet(states: seq<Loop>, events: seq<Fd>, x: int)
    requires Batch(states, events) && Quiet(states, events, -1)
    ensures Quiet(states, events, x)
  {
  }

  lemma NotAimedIsDelivered(states: seq<Loop>, events: seq<Fd>, m: nat)
    requires Batch(states, events) && m < |events| && |states| == m + 1
    requires CallsProgram(states[0], events[m]) && !AimedBefore(states[0], events, m, m)
    ensures CallsProgram(states[m], events[m])
  {
    hide Good, Served, Removed;
    Delivery(states, events, m, m);
  }

  /** The number of event `k` comes into other hands at event `i`, after the timer's event `l`. */
  lemma {:induction false} StrayHappens(s: Loop, events: seq<Fd>, l: nat, i: nat, k: nat) returns (states: seq<Loop>)
    requires Good(s) && IsBatch(s, events) && l < i < k < |events| && Aims(s, events, l, k) && MayCall(s, events, i)
    ensures |states| == k + 1 && states[0] == s && Batch(states, events) && Quiet(states, events, k)
    ensures InOtherHands(s, states[k], events[k]) && CallsProgram(states[k], events[k])
    decreases k, 0
  {
    hide Good, IsBatch, Batch, Quiet, Aims;
    var before := CallHappens(s, events, i);
    var reused := ServesReusing(before, events, l, i, k);
    states := ServesOn(reused, events, k, k);
    assert states[i + 1] == states[..i + 2][i + 1] == reused[i + 1];
    assert states[0] == states[..i + 2][0] == s;
    StaysInOtherHands(states, events, k, i + 1, k);
  }

  /** Of the events of a batch exactly those that may stray reach another handle than they were raised for in
      some service of the batch. */
  lemma StraysIff(s: Loop, events: seq<Fd>, k: nat)
    requires Reachable(s) && IsBatch(s, events) && k < |events|
    ensures (exists states :: Serves(states, events) && |states| == k + 1 && states[0] == s
                              && Strayed(s, states[k], events[k]))
            <==> MayStray(s, events, k)
  {
    hide Inv, TimerFacts, Reachable, IsBatch, MayCall, Aims, Served;
    ReachableIsGood(s);
    if MayStray(s, events, k) {
      var l: nat :| l < k && Aims(s, events, l, k) && CalledBetween(s, events, l, k);
      var i := CallBetween(s, events, l, k);
      var states := StrayHappens(s, events, l, i, k);
      assert Serves(states, events) && Strayed(s, states[k], events[k]);
    }
    forall states | Serves(states, events) && |states| == k + 1 && states[0] == s && Strayed(s, states[k], events[k])
      ensures MayStray(s, events, k)
    {
      assert Batch(states, events);
      StrayedMeansMayStray(states, events, k);
    }
  }

  // ---------------------------------------------------------------------------------------------------
  // A batch in which an event reaches a handle it was not raised for
  // ---------------------------------------------------------------------------------------------------

  function Own(fd: Fd): Handle {
    Handle(Some(fd), Plain)
  }

  /** Two handles are registered, the first on descriptor 4 with a timer on descriptor 5, the second on
      descriptor 6. Here epoll_wait returns the events of 5, 4 and 6. */
  function Before(): Loop {
    Loop(map[0 := Own(3), 1 := Own(4), 2 := Handle(Some(5), Timer(Some(1))), 3 := Own(6)],
         map[5 := Entry(2, None), 4 := Entry(1, Some(2)), 6 := Entry(3, None)],
         {5, 4, 6}, {3, 4, 5, 6}, {}, {0, 3}, {0, 1, 2, 3}, 4, 0, 4, 0, Idle, map[], [Armed(2, 1)])
  }

  function ToBefore(): seq<Loop> {
    var s0 := Init(Some(3));
    var s1 := s0.(objs := map[0 := Own(3), 1 := Own(4)], next := 2, open := {3, 4}, opens := 2, ext := {0, 1});
    var s2 := s1.(objs := map[0 := Own(3), 1 := Own(4), 2 := Handle(Some(5), Timer(Some(1)))],
                  next := 3, open := {3, 4, 5}, opens := 3, added := {0, 1, 2}, log := [Armed(2, 1)],
                  interest := {5, 4}, reg := map[5 := Entry(2, None), 4 := Entry(1, Some(2))]);
    var s3 := s2.(objs := Before().objs, next := 4, open := {3, 4, 5, 6}, opens := 4, ext := {0, 1, 3});
    var s4 := s3.(added := {0, 1, 2, 3}, interest := Before().interest, reg := Before().reg);
    [s0, s1, s2, s3, s4, Before()]
  }

  lemma MakeVictim()
    ensures Next(ToBefore()[0], ToBefore()[1])
  {
    var s, s' := ToBefore()[0], ToBefore()[1];
    assert Apply(s, NewPlain(NewFd(4))).objs == s'.objs;
    assert Enabled(s, NewPlain(NewFd(4))) && s' == Apply(s, NewPlain(NewFd(4)));
  }

  lemma MakeOther()
    ensures Next(ToBefore()[2], ToBefore()[3])
  {
    var s, s' := ToBefore()[2], ToBefore()[3];
    assert Apply(s, NewPlain(NewFd(6))).objs == s'.objs;
    assert Enabled(s, NewPlain(NewFd(6))) && s' == Apply(s, NewPlain(NewFd(6)));
  }

  lemma AddOther()
    ensures Next(ToBefore()[3], ToBefore()[4]) && Next(ToBefore()[4], ToBefore()[5])
  {
    var s3, s4, s5 := ToBefore()[3], ToBefore()[4], ToBefore()[5];
    var a := AddHandle(3, false, Answers(NoFd, true, true));
    assert Apply(s3, a).reg == s4.reg;
    assert Enabled(s3, a) && s4 == Apply(s3, a);
    assert Enabled(s4, Drop(1)) && s5 == Apply(s4, Drop(1));
  }

  lemma BeforeSteps()
    ensures forall i, j | 0 <= i < j < 6 && j == i + 1 :: Next(ToBefore()[i], ToBefore()[j])
  {
    hide Next;
    MakeVictim();
    AddsTimed();
    MakeOther();
    AddOther();
  }

  lemma AddsTimed()
    ensures Next(ToBefore()[1], ToBefore()[2])
  {
    var s1, s2 := ToBefore()[1], ToBefore()[2];
    var a := AddHandle(1, true, Answers(NewFd(5), true, true));
    var armed := Arm(s1, 1, NewFd(5));
    assert armed.objs == s2.objs;
    var s' := EpollAdd(armed, 2, None, true);
    assert s'.reg == map[5 := Entry(2, None)];
    assert EpollAdd(s', 1, Some(2), true) == s2;
    assert Enabled(s1, a) && s2 == Apply(s1, a);
  }

  lemma BeforeIsReachable()
    ensures Reachable(Before())
  {
    hide Next, Init;
    BeforeSteps();
    assert IsRun(ToBefore()) && ToBefore()[0] == Init(Some(3)) && ToBefore()[5] == Before();
    assert Reach(Init(Some(3)), Before());
  }

  /** The timer of handle 1 fires; the handler of handle 3 lets the program reuse descriptor 4; and the event
      that epoll_wait raised for handle 1 is dispatched to the handle that was given that number. */
  lemma EventReachesAnother()
    ensures exists s, events, states ::
      && Reachable(s) && IsBatch(s, events) && Serves(states, events) && states[0] == s && |states| == |events| == 3
      && Strayed(s, states[2], events[2])
  {
    hide Reachable, Serves, Good, Init;
    BeforeIsReachable();
    var s, events := Before(), [5, 6, 4];
    assert Aims(s, events, 0, 2);
    assert MayCall(s, events, 1) by {
      assert CallsProgram(s, 6) && !Aims(s, events, 0, 1);
    }
    assert CalledBetween(s, events, 0, 2);
    assert MayStray(s, events, 2);
    StraysIff(s, events, 2);
  }
}
