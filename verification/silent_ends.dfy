/** For each of the five silent ends of an address chain a run of the event loop that comes to it with
    addresses left that were never tried. */
module SilentEnds {
  import opened LoopModel
  import opened ChainEnds

  /** `run` starts with a new loop and ends with `step`, which silences chain 0 before its list is used up. */
  ghost predicate EndsSilently(run: seq<Loop>, step: Step) {
    && |run| >= 2 && IsRun(run) && run[0] == Init(Some(3))
    && var s := run[|run| - 2];
       && Enabled(s, step) && run[|run| - 1] == Apply(s, step)
       && Silences(s, step, 0) && Over(run[|run| - 1], 0)
       && s.chains[0].tried < s.chains[0].len
  }

  lemma EndsWith(run: seq<Loop>, step: Step)
    requires |run| >= 2 && run[0] == Init(Some(3))
    requires forall i, j | 0 <= i < j < |run| - 1 && j == i + 1 :: Next(run[i], run[j])
    requires var s := run[|run| - 2];
             Enabled(s, step) && run[|run| - 1] == Apply(s, step) && Silences(s, step, 0) && Over(run[|run| - 1], 0)
    requires run[|run| - 2].chains[0].tried < run[|run| - 2].chains[0].len
    ensures EndsSilently(run, step)
  {
    hide Enabled, Apply, Silences, Over, Init;
    assert Next(run[|run| - 2], run[|run| - 1]);
    forall i, j | 0 <= i < j < |run| && j == i + 1
      ensures Next(run[i], run[j])
    {
    }
  }

  // ---------------------------------------------------------------------------------------------------
  // The states
  // ---------------------------------------------------------------------------------------------------

  function Own(fd: Fd): Handle {
    Handle(Some(fd), Plain)
  }

  function Attempting(pos: nat): Kind {
    Client(0, pos, false)
  }

  /** The program asked for a connection to a host with three addresses. */
  function Asked(): Loop {
    Loop(map[0 := Own(3), 1 := Handle(Some(4), Attempting(0))], map[], {}, {3, 4}, {}, {0, 1}, {0},
         2, 0, 2, 1, Idle, map[0 := Attempts(3, 1, 1, false)], [Attempt(0, 0)])
  }

  function NotAccepted(): Loop {
    Asked().(added := {0, 1})
  }

  function Dropped(): Loop {
    Asked().(ext := {0})
  }

  function DestroyedUnused(): Loop {
    Dropped().(objs := map[0 := Own(3)], open := {3}, closes := 1)
  }

  /** It gave the handle to the loop with a timeout. */
  function Added(): Loop {
    Asked().(objs := map[0 := Own(3), 1 := Handle(Some(4), Attempting(0)), 2 := Handle(Some(5), Timer(Some(1)))],
             reg := map[5 := Entry(2, None), 4 := Entry(1, Some(2))], interest := {4, 5}, open := {3, 4, 5},
             added := {0, 1, 2}, opens := 3, next := 3, log := [Attempt(0, 0), Armed(2, 1)])
  }

  function TimerRuns(): Loop {
    Added().(ctl := Run(5, 2, None, Enter))
  }

  function TimerFired(): Loop {
    Added().(reg := map[5 := Entry(2, None)], interest := {5}, ctl := Run(5, 2, None, Leave(false)),
             log := [Attempt(0, 0), Armed(2, 1), TimedOut(2, 1)])
  }

  function AttemptAt(pc: Pc): Loop {
    Added().(ctl := Run(4, 1, Some(2), pc))
  }

  function HungUp(): Loop {
    Added().(reg := map[5 := Entry(2, None)], interest := {5})
  }

  /** The second address could not be connected to at all. */
  function NextRefused(): Loop {
    AttemptAt(Closing).(
      objs := map[0 := Own(3), 1 := Handle(Some(4), Attempting(0)), 2 := Handle(Some(5), Timer(Some(1))),
                  3 := Handle(None, Attempting(1)), 4 := Handle(None, Timer(Some(3)))],
      added := {0, 1, 2, 3, 4}, next := 5, chains := map[0 := Attempts(3, 2, 3, false)],
      log := [Attempt(0, 0), Armed(2, 1), Attempt(0, 1), Armed(4, 3)])
  }

  // ---------------------------------------------------------------------------------------------------
  // The steps
  // ---------------------------------------------------------------------------------------------------

  const REFUSED: Answers := Answers(NoFd, false, false)

  lemma Asks()
    ensures Next(Init(Some(3)), Asked())
  {
    var s, step := Init(Some(3)), NewChain(3, NewFd(4));
    assert Apply(s, step).objs == Asked().objs;
    assert Apply(s, step).log == Asked().log;
    assert Enabled(s, step) && Asked() == Apply(s, step);
  }

  lemma Adds()
    ensures Next(Asked(), Added())
  {
    var s, step := Asked(), AddHandle(1, true, Answers(NewFd(5), true, true));
    var armed := Arm(s, 1, NewFd(5));
    assert armed.objs == Added().objs && armed.added == {0, 1, 2} && armed.log == Added().log;
    var timed := EpollAdd(armed, 2, None, true);
    assert timed.reg == map[5 := Entry(2, None)] && timed.interest == {5};
    assert EpollAdd(timed, 1, Some(2), true) == Added();
    assert Enabled(s, step) && Added() == Apply(s, step);
  }

  lemma Drops()
    ensures Next(Asked(), Dropped())
  {
    assert Enabled(Asked(), Drop(1)) && Dropped() == Apply(Asked(), Drop(1));
  }

  lemma RunsTimer()
    ensures Next(Added(), TimerRuns())
  {
    assert Enabled(Added(), Dispatch(5)) && TimerRuns() == Apply(Added(), Dispatch(5));
  }

  lemma RunsAttempt()
    ensures Next(Added(), AttemptAt(Enter))
  {
    assert Enabled(Added(), Dispatch(4)) && AttemptAt(Enter) == Apply(Added(), Dispatch(4));
  }

  lemma Passes()
    ensures Next(AttemptAt(Enter), AttemptAt(Open))
  {
    assert Enabled(AttemptAt(Enter), Pass) && AttemptAt(Open) == Apply(AttemptAt(Enter), Pass);
  }

  lemma HangsUp()
    ensures Next(AttemptAt(Open), AttemptAt(Closing))
  {
    assert Enabled(AttemptAt(Open), HangUp) && AttemptAt(Closing) == Apply(AttemptAt(Open), HangUp);
  }

  lemma Closes()
    ensures Next(AttemptAt(Closing), AttemptAt(Leave(false)))
  {
    assert Enabled(AttemptAt(Closing), Close(false));
    assert AttemptAt(Leave(false)) == Apply(AttemptAt(Closing), Close(false));
  }

  // ---------------------------------------------------------------------------------------------------
  // The ends
  // ---------------------------------------------------------------------------------------------------

  /** The attempt at the first address times out. */
  lemma TimeoutEnds()
    ensures exists run :: EndsSilently(run, Fire)
  {
    hide Next, Init;
    Asks();
    Adds();
    RunsTimer();
    Fires();
    var run := [Init(Some(3)), Asked(), Added(), TimerRuns(), TimerFired()];
    EndsWith(run, Fire);
  }

  lemma Fires()
    ensures Enabled(TimerRuns(), Fire) && TimerFired() == Apply(TimerRuns(), Fire)
    ensures Silences(TimerRuns(), Fire, 0) && Over(TimerFired(), 0)
  {
    var s, s' := TimerRuns(), TimerFired();
    var removed := EpollDelHandle(s, 1);
    assert removed.reg == s'.reg && removed.interest == s'.interest;
    assert removed.reg != s.reg by { assert 4 in s.reg && 4 !in removed.reg; }
  }

  /** The attempt sees EPOLLHUP or EPOLLERR without EPOLLOUT. */
  lemma HangUpEnds()
    ensures exists run :: EndsSilently(run, Return)
  {
    hide Next, Init;
    Asks();
    Adds();
    RunsAttempt();
    Passes();
    HangsUp();
    Closes();
    Returns();
    var run := [Init(Some(3)), Asked(), Added(), AttemptAt(Enter), AttemptAt(Open), AttemptAt(Closing),
                AttemptAt(Leave(false)), HungUp()];
    EndsWith(run, Return);
  }

  lemma Returns()
    ensures Enabled(AttemptAt(Leave(false)), Return) && HungUp() == Apply(AttemptAt(Leave(false)), Return)
    ensures Silences(AttemptAt(Leave(false)), Return, 0) && Over(HungUp(), 0)
  {
    assert Apply(AttemptAt(Leave(false)), Return).reg == HungUp().reg;
  }

  /** The attempt at the second address gets no descriptor, and the third is never tried. */
  lemma NextAddressEnds()
    ensures exists run :: EndsSilently(run, TryNext(NoFd, REFUSED))
  {
    hide Next, Init;
    Asks();
    Adds();
    RunsAttempt();
    TriesSecond();
    var run := [Init(Some(3)), Asked(), Added(), AttemptAt(Enter), NextRefused()];
    EndsWith(run, TryNext(NoFd, REFUSED));
  }

  lemma TriesSecond()
    ensures Enabled(AttemptAt(Enter), TryNext(NoFd, REFUSED))
    ensures NextRefused() == Apply(AttemptAt(Enter), TryNext(NoFd, REFUSED))
    ensures Silences(AttemptAt(Enter), TryNext(NoFd, REFUSED), 0) && Over(NextRefused(), 0)
  {
    CanTrySecond();
    AddsSecond();
    SecondIsOver();
  }

  lemma CanTrySecond()
    ensures Enabled(AttemptAt(Enter), TryNext(NoFd, REFUSED))
    ensures Silences(AttemptAt(Enter), TryNext(NoFd, REFUSED), 0)
  {
  }

  function SecondMade(): Loop {
    NewAttempt(AttemptAt(Enter), 0, 3, 1, NoFd)
  }

  lemma AddsSecond()
    ensures Goto(Add(SecondMade(), 3, true, REFUSED), Closing) == NextRefused()
  {
    var armed := Arm(SecondMade(), 3, NoFd);
    assert armed.objs == NextRefused().objs && armed.added == NextRefused().added && armed.log == NextRefused().log;
  }

  lemma SecondIsOver()
    ensures Over(NextRefused(), 0)
  {
  }

  /** The kernel does not accept the program's handle. */
  lemma FailedAddEnds()
    ensures exists run :: EndsSilently(run, AddHandle(1, false, REFUSED))
  {
    hide Next, Init;
    Asks();
    NotAccepts();
    EndsWith([Init(Some(3)), Asked(), NotAccepted()], AddHandle(1, false, REFUSED));
  }

  lemma NotAccepts()
    ensures Enabled(Asked(), AddHandle(1, false, REFUSED))
    ensures NotAccepted() == Apply(Asked(), AddHandle(1, false, REFUSED))
    ensures Silences(Asked(), AddHandle(1, false, REFUSED), 0) && Over(NotAccepted(), 0)
  {
  }

  /** The program lets go of the handle without adding it. */
  lemma DropEnds()
    ensures exists run :: EndsSilently(run, Destroy(1))
  {
    hide Next, Init;
    Asks();
    Drops();
    Destroys();
    EndsWith([Init(Some(3)), Asked(), Dropped(), DestroyedUnused()], Destroy(1));
  }

  lemma Destroys()
    ensures Enabled(Dropped(), Destroy(1)) && DestroyedUnused() == Apply(Dropped(), Destroy(1))
    ensures Silences(Dropped(), Destroy(1), 0) && Over(DestroyedUnused(), 0)
  {
    assert !Referenced(Dropped(), 1);
    assert Apply(Dropped(), Destroy(1)).objs == DestroyedUnused().objs;
  }
}
