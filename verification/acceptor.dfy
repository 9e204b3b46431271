/** The listening socket's handler: it accepts until the kernel has no more connections, registering and
    announcing each one to a callback that may act on the loop. */
module Acceptors {
  import opened LoopModel
  import opened LoopInvariant
  import opened LoopTheorems
  import opened LoopProgram
  import opened EventLoops

  type Peer = nat

  /** One connection the kernel handed out: who connected, the handle made for it, and the descriptor under
      which that was registered, if it was. */
  datatype Taken = Taken(peer: Peer, hdl: Id, fd: Option<Fd>)

  ghost function Peers(ts: seq<Taken>): seq<Peer> {
    if ts == [] then [] else Peers(ts[..|ts| - 1]) + [ts[|ts| - 1].peer]
  }

  /** The handles that were registered, in order. */
  ghost function Kept(ts: seq<Taken>): seq<Id> {
    if ts == [] then []
    else Kept(ts[..|ts| - 1]) + if ts[|ts| - 1].fd.Some? then [ts[|ts| - 1].hdl] else []
  }

  lemma TakenSnoc(ts: seq<Taken>, t: Taken)
    ensures Peers(ts + [t]) == Peers(ts) + [t.peer]
    ensures Kept(ts + [t]) == Kept(ts) + if t.fd.Some? then [t.hdl] else []
  {
    assert (ts + [t])[..|ts|] == ts;
  }

  /** How the registry `reg0` grew to that of `s` by the connections of `ts` and the handles `others`, which
      callbacks added: nothing that was there changed; each connection has its entry, or none if its `add`
      failed; every other new entry is of a handle in `others`; and the handles of the connections, which are
      not among `others`, are in the order in which they were accepted. */
  ghost predicate Recorded(reg0: map<Fd, Entry>, s: Loop, ts: seq<Taken>, others: set<Id>) {
    && (forall fd | fd in reg0 :: fd in s.reg && s.reg[fd] == reg0[fd])
    && (forall t | t in ts :: HasItsEntry(s.reg, t))
    && (forall fd | fd in s.reg && fd !in reg0 :: s.reg[fd].hdl in others || s.reg[fd].hdl in Kept(ts))
    && InOrder(s, ts, others)
  }

  ghost predicate HasItsEntry(reg: map<Fd, Entry>, t: Taken) {
    if t.fd.Some? then t.fd.value in reg && reg[t.fd.value] == Entry(t.hdl, None)
    else forall fd | fd in reg :: reg[fd].hdl != t.hdl
  }

  ghost predicate InOrder(s: Loop, ts: seq<Taken>, others: set<Id>) {
    && (forall t | t in ts :: t.hdl in s.added && t.hdl !in others && t.hdl < s.next)
    && (forall i, j | 0 <= i < j < |ts| :: ts[i].hdl < ts[j].hdl)
    && others <= s.added
  }

  /** The entry `t` was given, if it was. */
  function WithEntry(reg: map<Fd, Entry>, t: Taken): map<Fd, Entry> {
    if t.fd.Some? then reg[t.fd.value := Entry(t.hdl, None)] else reg
  }

  /** One connection is taken: `mid` is the loop when it has been given to it, `after` when the connect
      callback has returned. */
  datatype Turn = Turn(t: Taken, mid: Loop, after: Loop)

  /** The connection's handle is new and added, and registered or not; and if it was, the connect callback
      finds it registered and does what it likes, and if it was not, nothing more happens. */
  ghost predicate TookTurn(s: Loop, u: Turn) {
    && u.t.hdl == s.next < u.mid.next && u.t.hdl !in s.added && u.mid.added == s.added + {u.t.hdl}
    && (u.t.fd.Some? ==> u.t.fd.value !in s.reg) && u.mid.reg == WithEntry(s.reg, u.t)
    && Reach(s, u.mid)
    && if u.t.fd.Some? then ByProgram(u.mid, u.after) && Extends(u.mid, u.after) else u.after == u.mid
  }

  /** Where the loop is after some turns that began at `s`. */
  ghost function EndOf(s: Loop, us: seq<Turn>): Loop {
    if us == [] then s else us[|us| - 1].after
  }

  ghost predicate TookTurns(s: Loop, us: seq<Turn>) {
    us != [] ==>
      && TookTurns(s, us[..|us| - 1])
      && TookTurn(EndOf(s, us[..|us| - 1]), us[|us| - 1])
  }

  ghost function Connections(us: seq<Turn>): seq<Taken> {
    if us == [] then [] else Connections(us[..|us| - 1]) + [us[|us| - 1].t]
  }

  /** The handles that the connect callbacks of some turns gave to the loop. */
  ghost function AddedByCallbacks(us: seq<Turn>): set<Id> {
    if us == [] then {}
    else AddedByCallbacks(us[..|us| - 1]) + (us[|us| - 1].after.added - us[|us| - 1].mid.added)
  }

  lemma TurnsSnoc(s: Loop, us: seq<Turn>, u: Turn)
    requires TookTurns(s, us) && TookTurn(EndOf(s, us), u)
    ensures TookTurns(s, us + [u]) && EndOf(s, us + [u]) == u.after
    ensures Connections(us + [u]) == Connections(us) + [u.t]
    ensures AddedByCallbacks(us + [u]) == AddedByCallbacks(us) + (u.after.added - u.mid.added)
  {
    hide TookTurn;
    assert (us + [u])[..|us|] == us;
  }

  /** The handles of the connections. */
  ghost function Handles(ts: seq<Taken>): set<Id> {
    set t | t in ts :: t.hdl
  }

  /** Everything that was added is accounted for: what had been before, the connections, and what the callbacks
      added. */
  ghost predicate Accounted(added0: set<Id>, added: set<Id>, ts: seq<Taken>, others: set<Id>) {
    && added == added0 + Handles(ts) + others
    && added0 !! Handles(ts) && added0 !! others && Handles(ts) !! others
  }

  /** The loop went through the turns `us` from `s` to `s'`, and everything in its registry is accounted for. */
  ghost predicate AcceptedBy(s: Loop, us: seq<Turn>, s': Loop) {
    && TookTurns(s, us) && EndOf(s, us) == s'
    && Accounted(s.added, s'.added, Connections(us), AddedByCallbacks(us))
    && Recorded(s.reg, s', Connections(us), AddedByCallbacks(us))
  }

  lemma AcceptedOneMore(s: Loop, us: seq<Turn>, s1: Loop, u: Turn)
    requires AcceptedBy(s, us, s1) && Inv(s1) && TookTurn(s1, u)
    ensures AcceptedBy(s, us + [u], u.after) && Connections(us + [u]) == Connections(us) + [u.t]
  {
    hide Inv, TookTurn, Recorded, Accounted, TookTurns, Connections, AddedByCallbacks, EndOf;
    EntriesAreAdded(s1);
    AccountedSnoc(s.added, Connections(us), AddedByCallbacks(us), s1, u);
    RecordedSnoc(s.reg, s1, Connections(us), AddedByCallbacks(us), u);
    TurnsSnoc(s, us, u);
  }

  lemma AccountedSnoc(added0: set<Id>, ts: seq<Taken>, others: set<Id>, s: Loop, u: Turn)
    requires Accounted(added0, s.added, ts, others) && TookTurn(s, u)
    ensures Accounted(added0, u.after.added, ts + [u.t], others + (u.after.added - u.mid.added))
  {
    hide Reach, ByProgram;
    assert Handles(ts + [u.t]) == Handles(ts) + {u.t.hdl};
  }

  /** A turn keeps every entry, and new ones are the connection's or of handles that the callback added. */
  lemma TurnKeepsEntries(s: Loop, u: Turn)
    requires TookTurn(s, u) && forall fd | fd in s.reg :: s.reg[fd].hdl in s.added
    ensures forall fd | fd in s.reg :: fd in u.after.reg && u.after.reg[fd] == s.reg[fd]
    ensures u.t.fd.Some? ==> u.t.fd.value in u.after.reg && u.after.reg[u.t.fd.value] == Entry(u.t.hdl, None)
    ensures forall fd | fd in u.after.reg && fd !in s.reg ::
              (u.t.fd.Some? && u.after.reg[fd].hdl == u.t.hdl) || u.after.reg[fd].hdl in u.after.added - u.mid.added
    ensures s.added <= u.after.added && u.mid.added <= u.after.added && u.t.hdl in u.mid.added - s.added
    ensures s.next == u.t.hdl < u.after.next && u.mid.added == s.added + {u.t.hdl}
  {
    hide Reach, ByProgram;
  }

  lemma InOrderSnoc(s: Loop, ts: seq<Taken>, others: set<Id>, u: Turn)
    requires InOrder(s, ts, others) && TookTurn(s, u) && forall fd | fd in s.reg :: s.reg[fd].hdl in s.added
    ensures InOrder(u.after, ts + [u.t], others + (u.after.added - u.mid.added))
  {
    TurnKeepsEntries(s, u);
    hide TookTurn;
  }

  lemma TakenInOrder(s: Loop, ts: seq<Taken>, others: set<Id>)
    requires InOrder(s, ts, others)
    ensures forall t | t in ts :: t.hdl in s.added
  {
  }

  lemma EarlierHasItsEntry(s: Loop, t: Taken, u: Turn)
    requires HasItsEntry(s.reg, t) && t.hdl in s.added && TookTurn(s, u)
    requires forall fd | fd in s.reg :: s.reg[fd].hdl in s.added
    ensures HasItsEntry(u.after.reg, t)
  {
    TurnKeepsEntries(s, u);
    hide TookTurn;
    forall fd | fd in u.after.reg && t.fd.None?
      ensures u.after.reg[fd].hdl != t.hdl
    {
      if fd in s.reg {
        assert u.after.reg[fd] == s.reg[fd];
      }
    }
  }

  lemma LatestHasItsEntry(s: Loop, u: Turn)
    requires TookTurn(s, u) && forall fd | fd in s.reg :: s.reg[fd].hdl in s.added
    ensures HasItsEntry(u.after.reg, u.t)
  {
    TurnKeepsEntries(s, u);
    hide TookTurn;
    forall fd | fd in u.after.reg && u.t.fd.None?
      ensures u.after.reg[fd].hdl != u.t.hdl
    {
      if fd in s.reg {
        assert u.after.reg[fd] == s.reg[fd];
      }
    }
  }

  lemma RecordedSnoc(reg0: map<Fd, Entry>, s: Loop, ts: seq<Taken>, others: set<Id>, u: Turn)
    requires Recorded(reg0, s, ts, others) && TookTurn(s, u)
    requires forall fd | fd in s.reg :: s.reg[fd].hdl in s.added
    ensures Recorded(reg0, u.after, ts + [u.t], others + (u.after.added - u.mid.added))
  {
    hide Kept, Peers, TookTurn, HasItsEntry, InOrder;
    TakenSnoc(ts, u.t);
    TurnKeepsEntries(s, u);
    InOrderSnoc(s, ts, others, u);
    TakenInOrder(s, ts, others);
    forall t | t in ts + [u.t]
      ensures HasItsEntry(u.after.reg, t)
    {
      if t in ts {
        EarlierHasItsEntry(s, t, u);
      } else {
        LatestHasItsEntry(s, u);
      }
    }
    assert u.t.fd.Some? ==> Kept(ts + [u.t])[|Kept(ts)|] == u.t.hdl;
    forall fd | fd in u.after.reg && fd !in reg0
      ensures u.after.reg[fd].hdl in others + (u.after.added - u.mid.added) || u.after.reg[fd].hdl in Kept(ts + [u.t])
    {
      if fd in s.reg {
        assert u.after.reg[fd] == s.reg[fd];
      }
    }
  }

  lemma {:induction false} KeptWasTaken(ts: seq<Taken>, id: Id)
    requires id in Kept(ts)
    ensures exists t :: t in ts && t.fd.Some? && t.hdl == id
  {
    if ts != [] {
      var t := ts[|ts| - 1];
      if t.fd.None? || t.hdl != id {
        KeptWasTaken(ts[..|ts| - 1], id);
      } else {
        assert t in ts;
      }
    }
  }

  /** The descriptors under which connections were registered. */
  ghost function Keys(ts: seq<Taken>): set<Fd> {
    set t | t in ts && t.fd.Some? :: t.fd.value
  }

  /** If the callbacks added nothing, the registry grew by exactly the entries of the connections whose `add`
      succeeded. */
  lemma ExactGrowth(reg0: map<Fd, Entry>, s: Loop, ts: seq<Taken>)
    requires Inv(s) && Recorded(reg0, s, ts, {})
    ensures s.reg.Keys == reg0.Keys + Keys(ts)
    ensures forall fd | fd in reg0 :: s.reg[fd] == reg0[fd]
    ensures forall t | t in ts && t.fd.Some? :: s.reg[t.fd.value] == Entry(t.hdl, None)
  {
    hide TimerInv, LogInv, ChainInv, HistoryInv, DisconnectIsLast, Kept;
    forall fd | fd in s.reg
      ensures fd in reg0.Keys + Keys(ts)
    {
      if fd !in reg0 {
        KeptWasTaken(ts, s.reg[fd].hdl);
        var t :| t in ts && t.fd.Some? && t.hdl == s.reg[fd].hdl;
        assert s.objs[t.hdl].fd == Some(t.fd.value) && s.objs[t.hdl].fd == Some(fd);
      }
    }
  }

  lemma Shift(done: seq<Peer>, p: Peer, b: seq<Peer>, b': seq<Peer>, future: seq<Peer>)
    requires b == [p] + b'
    ensures done + (b + future) == done + [p] + (b' + future)
  {
    assert b + future == [p] + (b' + future);
  }

  lemma NothingRecorded(s: Loop)
    ensures Peers([]) == [] && Kept([]) == [] && AcceptedBy(s, [], s) && Connections([]) == []
  {
    assert Handles([]) == {};
  }

  /** The registry refers to added handles only, and no identity to come was added. */
  lemma EntriesAreAdded(s: Loop)
    requires Inv(s)
    ensures forall fd | fd in s.reg :: s.reg[fd].hdl in s.added
    ensures s.next !in s.added
  {
    hide TimerInv, LogInv, ChainInv, HistoryInv, DisconnectIsLast;
  }

  lemma Creates(s: Loop, os: Os)
    requires Inv(s) && OsCan(s, os) && !os.LostFd?
    ensures Enabled(s, NewPlain(os))
    ensures Apply(s, NewPlain(os)) == Create(s, Plain, os).(ext := s.ext + {s.next})
    ensures s.next !in s.added && s.next !in s.objs && s.next != EPOLL && EPOLL in s.objs
  {
  }

  lemma Adds(s: Loop, id: Id, a: Answers)
    requires id in s.objs && id in s.ext && id !in s.added && EPOLL in s.objs && a.os.NoFd?
    ensures Enabled(s, LoopModel.AddHandle(id, false, a))
    ensures Apply(s, LoopModel.AddHandle(id, false, a)) == Add(s, id, false, a)
  {
  }

  lemma Drops(s: Loop, id: Id)
    requires id in s.ext && id != EPOLL
    ensures Enabled(s, Drop(id)) && Apply(s, Drop(id)) == s.(ext := s.ext - {id})
  {
  }

  /** The registry after an untimed `add`. */
  lemma Admitted(s0: Loop, s: Loop, id: Id, a: Answers)
    requires Inv(s) && id in s.objs && EPOLL in s.objs && s.reg == s0.reg
    ensures var s' := Add(s, id, false, a);
            && s'.objs == s.objs && s'.ctl == s.ctl && s'.next == s.next && s'.ext == s.ext
            && s'.added == s.added + {id}
            && if s'.interest != s.interest then
                 s.objs[id].fd.Some? && s.objs[id].fd.value !in s0.reg &&
                 s'.reg == s0.reg[s.objs[id].fd.value := Entry(id, None)]
               else s'.reg == s0.reg
  {
    hide TimerInv, LogInv, ChainInv, HistoryInv, DisconnectIsLast;
  }

  lemma StaysAlive(s: Loop, id: Id, fd: Fd)
    requires Inv(s) && fd in s.reg && s.reg[fd].hdl == id
    ensures id in s.objs && s.objs[id].fd == Some(fd)
  {
  }

  /** A new handle that was not registered: nothing but the program's own reference leads to it. */
  lemma NewIsHeldBy(s0: Loop, s1: Loop, s2: Loop, id: Id)
    requires Inv(s0) && s0.ctl.Run? && id == s0.next && s1.ctl == s0.ctl && s1.reg == s0.reg && s2.ctl == s0.ctl
    requires s1.objs.Keys == s0.objs.Keys + {id} && (forall h | h in s0.objs :: s1.objs[h] == s0.objs[h])
    requires s1.objs[id].kind == Plain && s2.objs == s1.objs
    ensures forall t | t in s2.objs :: s2.objs[t].kind != Timer(Some(id))
    ensures s2.ctl.hdl != id && s2.ctl.timer != Some(id)
    ensures forall fd | fd in s0.reg :: s0.reg[fd].hdl != id
  {
    hide LogInv, ChainInv, HistoryInv, DisconnectIsLast;
    forall t | t in s2.objs
      ensures s2.objs[t].kind != Timer(Some(id))
    {
      if t != id {
        assert IsAimed(s0, t) <==> s0.objs[t].kind.Timer? && s0.objs[t].kind.closure.Some?;
      }
    }
  }

  lemma NotHeld(s: Loop, s': Loop, id: Id)
    requires id !in s.ext && s' == s.(objs := s'.objs, open := s'.open, closes := s'.closes)
    requires s'.objs.Keys <= s.objs.Keys && (forall h | h in s'.objs :: s'.objs[h] == s.objs[h])
    requires forall t | t in s.objs :: s.objs[t].kind != Timer(Some(id))
    requires s.ctl.Run? && s.ctl.hdl != id && s.ctl.timer != Some(id)
    requires forall fd | fd in s.reg :: s.reg[fd].hdl != id
    ensures !Referenced(s', id)
  {
  }

  class Server {
    const loop: EventLoop

    /** The kernel's listening socket: who waits, who will still come, how many calls will fail. */
    var backlog: seq<Peer>
    var future: seq<Peer>
    var faults: nat

    /** The calls of the connect callback, and a record of what was accepted. */
    var announced: seq<Id>
    ghost var taken: seq<Taken>

    constructor (loop: EventLoop, future: seq<Peer>, faults: nat)
      ensures this.loop == loop && this.future == future && this.faults == faults
      ensures backlog == [] && announced == [] && taken == []
    {
      this.loop, this.future, this.faults := loop, future, faults;
      backlog, announced, taken := [], [], [];
    }

    /** Connections arrive. */
    method Arrive()
      modifies this`backlog, this`future
      ensures backlog + future == old(backlog + future) && |future| <= old(|future|)
    {
      var n: nat := *;
      if 0 <= n <= |future| {
        backlog, future := backlog + future[..n], future[n..];
      }
    }

    /** Server::accept. It ends because the kernel reported an empty backlog; everyone who came was taken in
        order; what the loop went through is the turns `us`; the registry grew by exactly the connections whose
        `add` succeeded and by handles that the callbacks added; and those connections were announced once
        each, in the order they were accepted. */
    method Accept() returns (ghost us: seq<Turn>)
      requires Inv(loop.View()) && loop.ctl.Run?
      modifies this, loop
      ensures Inv(loop.View()) && Reach(old(loop.View()), loop.View()) && loop.ctl == old(loop.ctl)
      ensures AcceptedBy(old(loop.View()), us, loop.View())
      ensures backlog == [] && taken == old(taken) + Connections(us)
      ensures Peers(Connections(us)) + future == old(backlog + future)
      ensures announced == old(announced) + Kept(Connections(us))
    {
      hide Inv, Reach, AcceptedBy, Peers, Kept, TookTurn, Connections;
      ghost var s0 := loop.View();
      ReachSelf(s0);
      us := [];
      NothingRecorded(s0);
      while true
        invariant Inv(loop.View()) && Reach(s0, loop.View()) && loop.ctl == s0.ctl
        invariant AcceptedBy(s0, us, loop.View()) && taken == old(taken) + Connections(us)
        invariant Peers(Connections(us)) + (backlog + future) == old(backlog + future)
        invariant announced == old(announced) + Kept(Connections(us))
        decreases |future| + |backlog| + faults
      {
        ghost var waiting := |backlog + future|;
        Arrive();
        assert |backlog + future| == waiting;
        var fails: bool := *;
        if fails && faults > 0 {
          faults := faults - 1;
          continue;
        }
        if backlog == [] {
          assert backlog + future == future;
          break;
        }
        ghost var s1, ts, b := loop.View(), Connections(us), backlog;
        ghost var u := TakeOne();
        ReachTransitive(s0, s1, loop.View());
        TakenSnoc(ts, u.t);
        AcceptedOneMore(s0, us, s1, u);
        us := us + [u];
        Shift(Peers(ts), u.t.peer, b, backlog, future);
      }
    }

    /** The turn of the loop of `accept` that takes a connection. */
    method TakeOne() returns (ghost u: Turn)
      requires Inv(loop.View()) && loop.ctl.Run? && backlog != []
      modifies this`backlog, this`announced, this`taken, loop
      ensures Inv(loop.View()) && Reach(old(loop.View()), loop.View()) && loop.ctl == old(loop.ctl)
      ensures TookTurn(old(loop.View()), u) && u.after == loop.View()
      ensures old(backlog) == [u.t.peer] + backlog && taken == old(taken) + [u.t]
      ensures announced == old(announced) + if u.t.fd.Some? then [u.t.hdl] else []
    {
      hide Inv, Reach, ByProgram;
      ghost var s0 := loop.View();
      EntriesAreAdded(s0);
      var peer := backlog[0];
      backlog := backlog[1..];
      var id, ok := Admit();
      ghost var t, mid := Taken(peer, id, if ok then loop.objs[id].fd else None), loop.View();
      taken := taken + [t];
      if ok {
        announced := announced + [id];
        loop.Callback();
        ReachTransitive(s0, mid, loop.View());
      }
      u := Turn(t, mid, loop.View());
    }

    /** One connection: its handle is constructed, given to the loop, and from then on held by the loop
        alone, or destroyed. */
    method Admit() returns (id: Id, ok: bool)
      requires Inv(loop.View()) && loop.ctl.Run?
      modifies loop
      ensures Inv(loop.View()) && Reach(old(loop.View()), loop.View()) && loop.ctl == old(loop.ctl)
      ensures id == old(loop.next) < loop.next && loop.added == old(loop.added) + {id}
      ensures if ok then
                id in loop.objs && loop.objs[id].fd.Some? && loop.objs[id].fd.value !in old(loop.reg) &&
                loop.reg == old(loop.reg)[loop.objs[id].fd.value := Entry(id, None)]
              else id !in loop.objs && loop.reg == old(loop.reg)
    {
      hide Inv, Reach, Enabled, Apply, Referenced;
      ghost var s0 := loop.View();
      id, ok := Offer();
      ghost var s2 := loop.View();
      Drops(s2, id);
      StepTaken(s0, s2, Drop(id));
      loop.Perform(Drop(id));
      ghost var s3 := loop.View();
      loop.Release();
      ReachTransitive(s0, s3, loop.View());
      if ok {
        StaysAlive(loop.View(), id, s2.objs[id].fd.value);
      } else if id in loop.objs {
        NotHeld(s3, loop.View(), id);
        assert false;
      }
    }

    /** The new handle is given to the loop, while `accept` still refers to it. */
    method Offer() returns (id: Id, ok: bool)
      requires Inv(loop.View()) && loop.ctl.Run?
      modifies loop
      ensures Inv(loop.View()) && Reach(old(loop.View()), loop.View()) && loop.ctl == old(loop.ctl)
      ensures id == old(loop.next) < loop.next && loop.added == old(loop.added) + {id}
      ensures id in loop.objs && id in loop.ext && id != EPOLL
      ensures if ok then
                loop.objs[id].fd.Some? && loop.objs[id].fd.value !in old(loop.reg) &&
                loop.reg == old(loop.reg)[loop.objs[id].fd.value := Entry(id, None)]
              else loop.reg == old(loop.reg)
      ensures forall t | t in loop.objs :: loop.objs[t].kind != Timer(Some(id))
      ensures loop.ctl.hdl != id && loop.ctl.timer != Some(id)
      ensures forall fd | fd in old(loop.reg) :: old(loop.reg)[fd].hdl != id
    {
      hide Inv, Reach, Enabled, Apply, Add;
      ghost var s0 := loop.View();
      ReachSelf(s0);
      var os: Os := *;
      if os.LostFd? || !OsCan(loop.View(), os) {
        os := NoFd;
      }
      var willing: bool := *;
      id, ok := loop.next, false;
      Creates(s0, os);
      StepTaken(s0, s0, NewPlain(os));
      loop.Perform(NewPlain(os));

      ghost var s1 := loop.View();
      var a := Answers(NoFd, false, willing);
      Adds(s1, id, a);
      StepTaken(s0, s1, LoopModel.AddHandle(id, false, a));
      ok := loop.AddHandle(id, false, a);
      Admitted(s0, s1, id, a);
      NewIsHeldBy(s0, s1, loop.View(), id);
    }

    /** Server::on_data. A readable listener accepts, and nothing else happens; any other event changes nothing at
        all; and the listener is always kept. */
    method OnData(readable: bool) returns (keep: bool, ghost us: seq<Turn>)
      requires Inv(loop.View()) && loop.ctl.Run? && loop.ctl.pc == Open
      modifies this, loop
      ensures Inv(loop.View()) && Reach(old(loop.View()), loop.View())
      ensures keep && loop.ctl == old(loop.ctl).(pc := Leave(true))
      ensures AcceptedBy(old(loop.View()), us, loop.View().(ctl := old(loop.ctl)))
      ensures taken == old(taken) + Connections(us) && announced == old(announced) + Kept(Connections(us))
      ensures Peers(Connections(us)) + (backlog + future) == old(backlog + future)
      ensures if readable then backlog == [] else us == [] && backlog == old(backlog) && future == old(future)
    {
      hide Inv, Reach, Enabled, Apply, Kept, Peers, AcceptedBy, Connections;
      ghost var s0 := loop.View();
      ReachSelf(s0);
      us := [];
      NothingRecorded(s0);
      if readable {
        us := Accept();
        assert backlog + future == future;
      }
      ghost var s1 := loop.View();
      HandlerExists(s1);
      StepTaken(s0, s1, Serve);
      loop.ctl := loop.ctl.(pc := Leave(true));
      assert loop.View().(ctl := s0.ctl) == s1;
      keep := true;
    }
  }
}
