/** What the program does inside a callback: it makes, keeps, drops and adds handles. It removes nothing, concludes
    no chain, and says nothing in anybody's name. */
module LoopProgram {
  import opened LoopModel
  import opened LoopInvariant
  import opened LoopCreation
  import opened LoopTheorems

  /** `s'` has the entries of `s`, and otherwise only entries of handles that were added meanwhile. */
  ghost predicate Extends(s: Loop, s': Loop) {
    && s.added <= s'.added && s.next <= s'.next
    && (forall fd | fd in s.reg :: fd in s'.reg && s'.reg[fd] == s.reg[fd])
    && (forall fd | fd in s'.reg && fd !in s.reg :: s'.reg[fd].hdl in s'.added && s'.reg[fd].hdl !in s.added)
  }

  lemma RegistrationExtends(s: Loop, s': Loop, id: Id, timer: Option<Id>, willing: bool)
    requires Extends(s, s') && id in s'.objs && id in s'.added && id !in s.added
    ensures Extends(s, LoopModel.EpollAdd(s', id, timer, willing))
    ensures var s'' := LoopModel.EpollAdd(s', id, timer, willing); s''.objs == s'.objs && s''.added == s'.added
  {
  }

  lemma AddExtends(s: Loop, id: Id, timed: bool, a: Answers)
    requires id in s.objs && EPOLL in s.objs && id !in s.added && s.next !in s.added
    ensures Extends(s, Add(s, id, timed, a))
  {
    hide LoopModel.EpollAdd;
    if s.objs[EPOLL].fd.Some? {
      if timed {
        var s2 := Arm(s, id, a.os);
        RegistrationExtends(s, s2, s.next, None, a.timerWilling);
        RegistrationExtends(s, LoopModel.EpollAdd(s2, s.next, None, a.timerWilling), id, Some(s.next), a.willing);
      } else {
        RegistrationExtends(s, s.(added := s.added + {id}), id, None, a.willing);
      }
    }
  }

  lemma ExtendsTransitive(s: Loop, s1: Loop, s2: Loop)
    requires Extends(s, s1) && Extends(s1, s2)
    ensures Extends(s, s2)
  {
    forall fd | fd in s2.reg && fd !in s.reg
      ensures s2.reg[fd].hdl in s2.added && s2.reg[fd].hdl !in s.added
    {
      if fd in s1.reg {
        assert s2.reg[fd] == s1.reg[fd];
      }
    }
  }

  /** One thing the program does, and any number of them. */
  ghost predicate ProgramStep(s: Loop, s': Loop) {
    exists step :: IsProgramStep(step) && Enabled(s, step) && s' == Apply(s, step)
  }

  ghost predicate ByProgram(s: Loop, s': Loop) {
    exists run: seq<Loop> ::
      && |run| > 0 && run[0] == s && run[|run| - 1] == s'
      && forall i, j {:trigger ProgramStep(run[i], run[j])} | 0 <= i < j < |run| && j == i + 1 ::
           ProgramStep(run[i], run[j])
  }

  lemma ByProgramSelf(s: Loop)
    ensures ByProgram(s, s)
  {
    var run := [s];
    assert run[0] == s && run[|run| - 1] == s;
  }

  lemma ByProgramOn(s: Loop, s': Loop, step: Step)
    requires ByProgram(s, s') && IsProgramStep(step) && Enabled(s', step)
    ensures ByProgram(s, Apply(s', step))
  {
    hide Enabled, Apply;
    var run: seq<Loop> :|
      && |run| > 0 && run[0] == s && run[|run| - 1] == s'
      && forall i, j {:trigger ProgramStep(run[i], run[j])} | 0 <= i < j < |run| && j == i + 1 ::
           ProgramStep(run[i], run[j]);
    var s'' := Apply(s', step);
    assert ProgramStep(s', s'');
    var longer := run + [s''];
    forall i, j | 0 <= i < j < |longer| && j == i + 1
      ensures ProgramStep(longer[i], longer[j])
    {
      if j < |run| {
        assert ProgramStep(run[i], run[j]);
      }
    }
    assert longer[0] == s && longer[|longer| - 1] == s'';
  }

  /** The program only adds to the registry. */
  lemma ProgramExtends(s: Loop, s': Loop, step: Step)
    requires Inv(s') && IsProgramStep(step) && Enabled(s', step) && Extends(s, s')
    ensures Extends(s, Apply(s', step))
  {
    hide Inv, Extends, Add;
    InvMeansOld(s');
    if step.AddHandle? {
      AddExtends(s', step.id, step.timed, step.a);
    } else {
      SameRegistryExtends(s', Apply(s', step));
    }
    ExtendsTransitive(s, s', Apply(s', step));
  }

  lemma SameRegistryExtends(s: Loop, s': Loop)
    requires s'.reg == s.reg && s'.added == s.added && s.next <= s'.next
    ensures Extends(s, s')
  {
  }

  // ---------------------------------------------------------------------------------------------------
  // What the program leaves alone
  // ---------------------------------------------------------------------------------------------------

  /** The messages and disconnects of every handle are the same in number. */
  ghost predicate SameVoices(s: Loop, s': Loop) {
    forall h: Id ::
      && multiset(s'.log)[Message(h)] == multiset(s.log)[Message(h)]
      && multiset(s'.log)[Disconnected(h)] == multiset(s.log)[Disconnected(h)]
  }

  /** `s'` has the history of `s`, and the chains of `s` are as they were. */
  ghost predicate KeepsChains(s: Loop, s': Loop) {
    s.log <= s'.log && forall c | c in s.chains :: c in s'.chains && s'.chains[c] == s.chains[c]
  }

  lemma KeepsChainsTransitive(s: Loop, s1: Loop, s2: Loop)
    requires KeepsChains(s, s1) && KeepsChains(s1, s2)
    ensures KeepsChains(s, s2)
  {
  }

  /** An event that is neither a message nor a disconnect. */
  predicate Silent(e: Event) {
    !e.Message? && !e.Disconnected?
  }

  lemma SilentSnoc(s: Loop, s': Loop, e: Event)
    requires s'.log == s.log + [e] && Silent(e)
    ensures SameVoices(s, s')
  {
  }

  lemma AddIsAside(s: Loop, id: Id, timed: bool, a: Answers)
    requires id in s.objs && EPOLL in s.objs
    ensures var s' := Add(s, id, timed, a);
            s'.chains == s.chains && s.log <= s'.log && SameVoices(s, s')
  {
    var s' := Add(s, id, timed, a);
    if timed && s.objs[EPOLL].fd.Some? {
      SilentSnoc(s, s', Armed(s.next, id));
    }
  }

  lemma ProgramStepIsAside(s: Loop, step: Step)
    requires Inv(s) && IsProgramStep(step) && Enabled(s, step)
    ensures KeepsChains(s, Apply(s, step)) && SameVoices(s, Apply(s, step))
  {
    hide FdInv, RegInv, TimerInv, LogInv, HistoryInv, DisconnectIsLast, Add;
    var s' := Apply(s, step);
    if step.AddHandle? {
      AddIsAside(s, step.id, step.timed, step.a);
    } else if step.NewChain? {
      SilentSnoc(s, s', Attempt(s.nextChain, 0));
    }
  }

  /** Whatever a callback does, it keeps the chains and speaks for nobody. */
  lemma ProgramIsAside(s: Loop, s': Loop)
    requires Inv(s) && ByProgram(s, s')
    ensures Inv(s') && KeepsChains(s, s') && SameVoices(s, s')
  {
    hide Inv, ProgramStep;
    var run: seq<Loop> :|
      && |run| > 0 && run[0] == s && run[|run| - 1] == s'
      && forall i, j {:trigger ProgramStep(run[i], run[j])} | 0 <= i < j < |run| && j == i + 1 ::
           ProgramStep(run[i], run[j]);
    ProgramRunIsAside(run, |run| - 1);
  }

  lemma {:induction false} ProgramRunIsAside(run: seq<Loop>, n: nat)
    requires n < |run| && Inv(run[0])
    requires forall i, j {:trigger ProgramStep(run[i], run[j])} | 0 <= i < j < |run| && j == i + 1 ::
               ProgramStep(run[i], run[j])
    ensures Inv(run[n]) && KeepsChains(run[0], run[n]) && SameVoices(run[0], run[n])
  {
    hide Inv, Enabled, Apply;
    if n > 0 {
      ProgramRunIsAside(run, n - 1);
      assert ProgramStep(run[n - 1], run[n]);
      var step :| IsProgramStep(step) && Enabled(run[n - 1], step) && run[n] == Apply(run[n - 1], step);
      ProgramStepIsAside(run[n - 1], step);
      StepKeepsInv(run[n - 1], step);
      KeepsChainsTransitive(run[0], run[n - 1], run[n]);
    }
  }
}
