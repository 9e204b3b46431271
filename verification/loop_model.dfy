/** The event loop, the handles it dispatches to and the descriptors they own, as a transition system.

    Handles are named by identities that are never used again; descriptor numbers are reused at once.
    A handle is destroyed, and its descriptor closed, at any time after the last strong reference to it
    is gone: an entry of the loop, the closure of a timer, the variables of `start` and `connect_next`,
    or a reference of the program. The program, whose callbacks run in the middle of a dispatch, may
    create, keep, drop and add handles whenever it likes. */
module LoopModel {

  type Id = nat
  type Fd = nat
  type Chain = nat

  datatype Option<T> = None | Some(value: T)

  /** A timer with its closure, which captures the handle it is to remove and is gone once disabled; a
      client connection, an attempt at the address `pos` of its chain; or any other handle. */
  datatype Kind = Timer(closure: Option<Id>) | Client(chain: Chain, pos: nat, connected: bool) | Plain

  /** `fd` is m_fd_result: None stands for Err. */
  datatype Handle = Handle(fd: Option<Fd>, kind: Kind)

  /** HandleData: a strong reference to the handle, a weak one to its timer. */
  datatype Entry = Entry(hdl: Id, timer: Option<Id>)

  /** Where the dispatched handler stands: entered; inside the connect callback; inside the fail callback,
      with the timer to disable afterwards or not; past `is_connected`; about to close; returned. */
  datatype Pc = Enter | InConnect | InFail(disable: bool) | Open | Closing | Leave(keep: bool)

  /** The body of `start`: waiting, or with `hdl` and `timer` taken from the entry of `fd`. */
  datatype Control = Idle | Run(fd: Fd, hdl: Id, timer: Option<Id>, pc: Pc)

  datatype Event =
    | Attempt(chain: Chain, pos: nat)
    | Connected(chain: Chain, hdl: Id)
    | Failed(chain: Chain, hdl: Id)
    | Message(hdl: Id)
    | Disconnected(hdl: Id)
    | Armed(timer: Id, hdl: Id)
    | TimedOut(timer: Id, hdl: Id)

  /** The history of one call of `get_conn_hdl`: its addresses, how many were tried, by which handle last,
      and whether its connect or fail callback ran. */
  datatype Attempts = Attempts(len: nat, tried: nat, cur: Id, done: bool)

  datatype Loop = Loop(
    objs: map<Id, Handle>,   // handles constructed and not yet destroyed
    reg: map<Fd, Entry>,     // m_hdls
    interest: set<Fd>,       // the kernel's interest list
    open: set<Fd>,           // the descriptors the process holds
    leaked: set<Fd>,         // those of them that no handle owns
    ext: set<Id>,            // handles the program refers to
    added: set<Id>,          // handles that have been given to `add`
    opens: nat, closes: nat, // _OPEN_COUNT and _CLOSE_COUNT
    next: Id, nextChain: Chain,
    ctl: Control,
    chains: map<Chain, Attempts>,
    log: seq<Event>)

  /** What the system calls of a constructor came to: no descriptor, a new one, or for a timer whose
      timerfd_settime failed one that is left open and forgotten. */
  datatype Os = NoFd | NewFd(fd: Fd) | LostFd(fd: Fd)

  /** epoll_wait fills at most this many events. */
  const MAX_EVENTS: nat := 32

  /** The loop's own epoll descriptor belongs to handle 0, which is never added. */
  const EPOLL: Id := 0

  function Init(epfd: Option<Fd>): Loop {
    var open := if epfd.Some? then {epfd.value} else {};
    Loop(map[EPOLL := Handle(epfd, Plain)], map[], {}, open, {}, {EPOLL}, {EPOLL},
         if epfd.Some? then 1 else 0, 0, 1, 0, Idle, map[], [])
  }

  // ---------------------------------------------------------------------------------------------------
  // The operations
  // ---------------------------------------------------------------------------------------------------

  /** A constructor runs. */
  function Create(s: Loop, kind: Kind, os: Os): Loop {
    s.(objs := s.objs[s.next := Handle(if os.NewFd? then Some(os.fd) else None, kind)],
       next := s.next + 1,
       open := s.open + (if os.NoFd? then {} else {os.fd}),
       leaked := s.leaked + (if os.LostFd? then {os.fd} else {}),
       opens := s.opens + if os.NewFd? then 1 else 0)
  }

  predicate OsCan(s: Loop, os: Os) {
    !os.NoFd? ==> os.fd !in s.open
  }

  /** epoll_add: `willing` says whether the kernel accepts a descriptor that it could accept. */
  function EpollAdd(s: Loop, id: Id, timer: Option<Id>, willing: bool): Loop
    requires id in s.objs
  {
    match s.objs[id].fd
    case None => s
    case Some(fd) =>
      if !willing || fd in s.interest || fd !in s.open then s
      else s.(interest := s.interest + {fd}, reg := if fd in s.reg then s.reg else s.reg[fd := Entry(id, timer)])
  }

  /** epoll_del of an entry. */
  function EpollDel(s: Loop, fd: Fd): Loop {
    if fd in s.interest then s.(interest := s.interest - {fd}, reg := s.reg - {fd}) else s
  }

  /** epoll_del of a handle, by the number of the descriptor it owns. */
  function EpollDelHandle(s: Loop, id: Id): Loop
    requires id in s.objs
  {
    match s.objs[id].fd
    case None => s
    case Some(fd) => if fd in s.reg then EpollDel(s, fd) else s
  }

  /** The kernel's answers to one `add`: the timer's constructor and the two epoll_ctl calls. */
  datatype Answers = Answers(os: Os, timerWilling: bool, willing: bool)

  /** `add`: with a timeout, a timer whose closure captures the handle is made and registered first. */
  function Add(s: Loop, id: Id, timed: bool, a: Answers): Loop
    requires id in s.objs && EPOLL in s.objs
  {
    if s.objs[EPOLL].fd.None? then s.(added := s.added + {id})
    else if !timed then EpollAdd(s.(added := s.added + {id}), id, None, a.willing)
    else EpollAdd(EpollAdd(Arm(s, id, a.os), s.next, None, a.timerWilling), id, Some(s.next), a.willing)
  }

  /** The timer of `add`, before it is registered. */
  function Arm(s: Loop, id: Id, os: Os): Loop {
    Create(s.(added := s.added + {id, s.next}, log := s.log + [Armed(s.next, id)]), Timer(Some(id)), os)
  }

  /** Timer::disable on the timer that a weak reference leads to, if it still exists. */
  function Disable(s: Loop, timer: Option<Id>): Loop {
    if timer.Some? && timer.value in s.objs && s.objs[timer.value].kind.Timer?
    then s.(objs := s.objs[timer.value := s.objs[timer.value].(kind := Timer(None))])
    else s
  }

  function Goto(s: Loop, pc: Pc): Loop
    requires s.ctl.Run?
  {
    s.(ctl := s.ctl.(pc := pc))
  }

  function Emit(s: Loop, e: Event): Loop {
    s.(log := s.log + [e])
  }

  /** The timer `t` runs its closure: it removes the handle the closure captured, if that is registered. */
  function RunClosure(s: Loop, t: Id, h: Id): Loop
    requires h in s.objs
  {
    var s' := EpollDelHandle(s, h);
    if s'.reg != s.reg then Emit(s', TimedOut(t, h)) else s'
  }

  // ---------------------------------------------------------------------------------------------------
  // The steps
  // ---------------------------------------------------------------------------------------------------

  datatype Step =
    // The program, the kernel and the run-time system
    | NewPlain(os: Os)
    | NewChain(len: nat, os: Os)
    | AddHandle(id: Id, timed: bool, a: Answers)
    | Keep(id: Id)
    | Drop(id: Id)
    | Destroy(id: Id)
    // `start`
    | Dispatch(fd: Fd)
    | Return
    // Timer::on_data
    | Fire
    // Client::Connection::is_connected and connect_next
    | Pass
    | GetSockOptFails
    | Connects
    | ConnectReturns
    | LastFails
    | FailReturns
    | TryNext(os: Os, a: Answers)
    // on_data of any connection
    | Deliver
    | HangUp
    | Close(callback: bool)
    | Serve

  /** The steps of the program, as opposed to those of the loop and of the run-time system. */
  predicate IsProgramStep(step: Step) {
    step.NewPlain? || step.NewChain? || step.AddHandle? || step.Keep? || step.Drop?
  }

  predicate Registered(s: Loop, id: Id) {
    && id in s.objs
    && s.objs[id].fd.Some?
    && s.objs[id].fd.value in s.reg
    && s.reg[s.objs[id].fd.value].hdl == id
  }

  /** Some strong reference leads directly to `id`. The reference to the timer that `connect_next` holds
      lasts as long as its callbacks. */
  predicate Referenced(s: Loop, id: Id) {
    || id in s.ext
    || (exists fd | fd in s.reg :: s.reg[fd].hdl == id)
    || (exists t | t in s.objs :: s.objs[t].kind == Timer(Some(id)))
    || (s.ctl.Run? && (s.ctl.hdl == id || (s.ctl.timer == Some(id) && (s.ctl.pc.InConnect? || s.ctl.pc.InFail?))))
  }

  predicate InHandler(s: Loop, pc: Pc) {
    s.ctl.Run? && s.ctl.hdl in s.objs && s.ctl.pc == pc
  }

  /** The dispatched handle is a client connection that is not connected and sees a writable event. */
  predicate Connecting(s: Loop) {
    && InHandler(s, Enter)
    && s.objs[s.ctl.hdl].kind.Client? && !s.objs[s.ctl.hdl].kind.connected
    && s.objs[s.ctl.hdl].kind.chain in s.chains
  }

  predicate LastAddress(s: Loop)
    requires Connecting(s)
  {
    var k := s.objs[s.ctl.hdl].kind;
    s.chains[k.chain].len <= k.pos + 1
  }

  predicate Enabled(s: Loop, step: Step) {
    match step
    case NewPlain(os) => OsCan(s, os) && !os.LostFd?
    case NewChain(len, os) => OsCan(s, os) && !os.LostFd? && len > 0
    case AddHandle(id, _, a) => id in s.ext && id in s.objs && id !in s.added && OsCan(s, a.os) && EPOLL in s.objs
    case Keep(id) => id in s.objs
    case Drop(id) => id in s.ext && id != EPOLL
    case Destroy(id) => id in s.objs && !Referenced(s, id)
    case Dispatch(_) => s.ctl.Idle?
    case Return => s.ctl.Run? && s.ctl.pc.Leave?
    case Fire => InHandler(s, Enter) && s.objs[s.ctl.hdl].kind.Timer? &&
                 (s.objs[s.ctl.hdl].kind.closure.Some? ==> s.objs[s.ctl.hdl].kind.closure.value in s.objs)
    case Pass => InHandler(s, Enter) && !s.objs[s.ctl.hdl].kind.Timer?
    case GetSockOptFails => Connecting(s)
    case Connects => Connecting(s)
    case ConnectReturns => InHandler(s, InConnect) && s.objs[s.ctl.hdl].kind.Client?
    case LastFails => Connecting(s) && LastAddress(s)
    case FailReturns => s.ctl.Run? && s.ctl.pc.InFail?
    case TryNext(os, a) =>
      && Connecting(s) && !LastAddress(s) && EPOLL in s.objs
      && OsCan(s, os) && !os.LostFd? && OsCan(Create(s, Plain, os), a.os)
    case Deliver => InHandler(s, Open)
    case HangUp => InHandler(s, Open)
    case Close(_) => InHandler(s, Closing)
    case Serve => InHandler(s, Open)
  }

  function CurrentKind(s: Loop): Kind
    requires s.ctl.Run? && s.ctl.hdl in s.objs
  {
    s.objs[s.ctl.hdl].kind
  }

  function EndChain(s: Loop, c: Chain): Loop
    requires c in s.chains
  {
    s.(chains := s.chains[c := s.chains[c].(done := true)])
  }

  /** A new attempt of `chain` at address `pos`. */
  function NewAttempt(s: Loop, chain: Chain, len: nat, pos: nat, os: Os): Loop {
    Create(s.(chains := s.chains[chain := Attempts(len, pos + 1, s.next, false)],
              log := s.log + [Attempt(chain, pos)]),
           Client(chain, pos, false), os)
  }

  /** The next address of the dispatched attempt's chain is tried by a new handle, which is added with a
      timeout if the dispatched handle's timer still exists. */
  function TriesNext(s: Loop, os: Os, a: Answers): Loop
    requires Connecting(s) && EPOLL in s.objs
  {
    var k := CurrentKind(s);
    var timed := s.ctl.timer.Some? && s.ctl.timer.value in s.objs;
    Goto(Add(NewAttempt(s, k.chain, s.chains[k.chain].len, k.pos + 1, os), s.next, timed, a), Closing)
  }

  function Apply(s: Loop, step: Step): Loop
    requires Enabled(s, step)
  {
    match step
    case NewPlain(os) => Create(s, Plain, os).(ext := s.ext + {s.next})
    case NewChain(len, os) =>
      NewAttempt(s, s.nextChain, len, 0, os).(nextChain := s.nextChain + 1, ext := s.ext + {s.next})
    case AddHandle(id, timed, a) => Add(s, id, timed, a)
    case Keep(id) => s.(ext := s.ext + {id})
    case Drop(id) => s.(ext := s.ext - {id})
    case Destroy(id) =>
      var fd := s.objs[id].fd;
      s.(objs := s.objs - {id},
         open := s.open - (if fd.Some? then {fd.value} else {}),
         closes := s.closes + if fd.Some? then 1 else 0)
    case Dispatch(fd) =>
      if fd in s.reg then s.(ctl := Run(fd, s.reg[fd].hdl, s.reg[fd].timer, Enter)) else s
    case Return => (if s.ctl.pc.keep then s else EpollDel(s, s.ctl.fd)).(ctl := Idle)
    case Fire =>
      var closure := CurrentKind(s).closure;
      Goto(if closure.Some? then RunClosure(s, s.ctl.hdl, closure.value) else s, Leave(false))
    case Pass => Goto(s, Open)
    case GetSockOptFails =>
      Goto(Emit(EndChain(Disable(s, s.ctl.timer), CurrentKind(s).chain), Failed(CurrentKind(s).chain, s.ctl.hdl)),
           InFail(false))
    case Connects =>
      Goto(Emit(EndChain(s, CurrentKind(s).chain), Connected(CurrentKind(s).chain, s.ctl.hdl)), InConnect)
    case ConnectReturns =>
      var h := s.ctl.hdl;
      Goto(Disable(s.(objs := s.objs[h := s.objs[h].(kind := s.objs[h].kind.(connected := true))]), s.ctl.timer), Open)
    case LastFails =>
      Goto(Emit(EndChain(s, CurrentKind(s).chain), Failed(CurrentKind(s).chain, s.ctl.hdl)), InFail(true))
    case FailReturns => Goto(if s.ctl.pc.disable then Disable(s, s.ctl.timer) else s, Closing)
    case TryNext(os, a) => TriesNext(s, os, a)
    case Deliver => Emit(s, Message(s.ctl.hdl))
    case HangUp => Goto(s, Closing)
    case Close(callback) => Goto(if callback then Emit(s, Disconnected(s.ctl.hdl)) else s, Leave(false))
    case Serve => Goto(s, Leave(true))
  }

  // ---------------------------------------------------------------------------------------------------
  // Runs
  // ---------------------------------------------------------------------------------------------------

  /** `run` is a run: every state follows from the one before by a step that was enabled. */
  ghost predicate Next(s: Loop, s': Loop) {
    exists step :: Enabled(s, step) && s' == Apply(s, step)
  }

  ghost predicate IsRun(run: seq<Loop>) {
    && |run| > 0
    && forall i, j {:trigger Next(run[i], run[j])} | 0 <= i < j < |run| && j == i + 1 :: Next(run[i], run[j])
  }

  ghost predicate Reach(s: Loop, s': Loop) {
    exists run :: IsRun(run) && run[0] == s && run[|run| - 1] == s'
  }
}
