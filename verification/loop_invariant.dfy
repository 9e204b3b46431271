/** What every step of the event loop keeps. */
module LoopInvariant {
  import opened LoopModel

  // ---------------------------------------------------------------------------------------------------
  // Descriptors and ownership
  // ---------------------------------------------------------------------------------------------------

  ghost function Owners(objs: map<Id, Handle>): set<Id> {
    set id | id in objs && objs[id].fd.Some?
  }

  /** Every open descriptor that was not leaked belongs to a live handle. */
  ghost predicate NoOrphans(s: Loop) {
    forall fd | fd in s.open && fd !in s.leaked :: exists id :: id in s.objs && s.objs[id].fd == Some(fd)
  }

  /** Live handles own distinct open descriptors, the open descriptors are exactly the owned and the
      leaked ones, and the two counters differ by the number of live owners. */
  ghost predicate FdInv(s: Loop) {
    && (forall id | id in s.objs :: id < s.next)
    && (forall id | id in s.added :: id < s.next)
    && s.ext <= s.objs.Keys
    && EPOLL in s.ext && EPOLL in s.added && s.objs[EPOLL].kind == Plain
    && (forall i, j | i in s.objs && j in s.objs && s.objs[i].fd.Some? && s.objs[i].fd == s.objs[j].fd :: i == j)
    && (forall id | id in s.objs && s.objs[id].fd.Some? ::
          s.objs[id].fd.value in s.open && s.objs[id].fd.value !in s.leaked)
    && s.leaked <= s.open
    && NoOrphans(s)
    && s.opens == s.closes + |Owners(s.objs)|
  }

  // ---------------------------------------------------------------------------------------------------
  // The registry, the dispatched entry and timers
  // ---------------------------------------------------------------------------------------------------

  /** The registry and the kernel's interest list agree, and every entry's live handle owns its key. */
  ghost predicate RegInv(s: Loop) {
    && s.interest == s.reg.Keys
    && (forall fd | fd in s.reg ::
          && s.reg[fd].hdl in s.objs && s.objs[s.reg[fd].hdl].fd == Some(fd)
          && s.reg[fd].hdl in s.added && s.reg[fd].hdl != EPOLL
          && (s.reg[fd].timer.Some? ==> s.reg[fd].timer.value < s.next))
    && (s.ctl.Run? ==> s.ctl.fd in s.reg && s.reg[s.ctl.fd] == Entry(s.ctl.hdl, s.ctl.timer))
  }

  /** `t` is a live timer whose closure has not been disabled. */
  ghost predicate IsAimed(s: Loop, t: Id) {
    t in s.objs && s.objs[t].kind.Timer? && s.objs[t].kind.closure.Some?
  }

  /** Closures keep their targets alive, and the live timer aimed at a registered handle is the one its
      entry names. */
  ghost predicate TimerInv(s: Loop) {
    && (forall t | IsAimed(s, t) ::
          var h := s.objs[t].kind.closure.value;
          && h in s.objs && h < t && h in s.added && Armed(t, h) in s.log
          && (Registered(s, h) ==> s.reg[s.objs[h].fd.value].timer == Some(t)))
    && (forall e | e in s.log && e.Armed? :: e.timer < s.next)
    && (forall e, e' | e in s.log && e' in s.log && e.Armed? && e'.Armed? && e.timer == e'.timer :: e == e')
  }

  /** The handler's place agrees with the handle's kind. */
  ghost predicate CtlInv(s: Loop) {
    s.ctl.Run? ==>
      && s.ctl.hdl in s.objs
      && var kind := s.objs[s.ctl.hdl].kind;
         && (kind.Timer? ==> s.ctl.pc == Enter || s.ctl.pc == Leave(false))
         && (s.ctl.pc.InConnect? || s.ctl.pc.InFail? ==> kind.Client? && !kind.connected)
  }

  // ---------------------------------------------------------------------------------------------------
  // Callbacks
  // ---------------------------------------------------------------------------------------------------

  ghost predicate IsConnected(s: Loop, id: Id) {
    id in s.objs && s.objs[id].kind.Client? && s.objs[id].kind.connected
  }

  /** `id` was added and is registered no more: it will never be dispatched again. */
  ghost predicate Removed(s: Loop, id: Id) {
    id in s.added && !Registered(s, id)
  }

  ghost predicate LogInv(s: Loop) {
    && (forall e | e in s.log && e.Connected? ::
          && e.hdl in s.added
          && (e.hdl in s.objs ==>
                IsConnected(s, e.hdl) || (s.ctl.Run? && s.ctl.hdl == e.hdl && s.ctl.pc == InConnect)))
    && (forall h | IsConnected(s, h) :: h in s.added)
    && (forall t | IsAimed(s, t) :: !IsConnected(s, s.objs[t].kind.closure.value))
    && (forall e | e in s.log && e.TimedOut? :: Armed(e.timer, e.hdl) in s.log && Removed(s, e.hdl))
    && (forall e, e' | e in s.log && e' in s.log && e.Connected? && e'.TimedOut? :: e.hdl != e'.hdl)
    && (forall e | e in s.log && e.Disconnected? ::
          Removed(s, e.hdl) || (e.hdl in s.added && s.ctl.Run? && s.ctl.hdl == e.hdl && s.ctl.pc == Leave(false)))
  }

  /** No message and no second disconnect follows a disconnect. */
  ghost predicate DisconnectIsLast(log: seq<Event>) {
    forall i, j, h | 0 <= i < j < |log| && log[i] == Disconnected(h) ::
      log[j] != Disconnected(h) && log[j] != Message(h)
  }

  // ---------------------------------------------------------------------------------------------------
  // Address chains
  // ---------------------------------------------------------------------------------------------------

  /** `id` is being dispatched and has come to `pc` or further on the way to being removed. */
  ghost predicate Doomed(s: Loop, id: Id) {
    s.ctl.Run? && s.ctl.hdl == id && (s.ctl.pc == Closing || s.ctl.pc == Leave(false))
  }

  /** An attempt that was given up: it is removed or about to be. */
  ghost predicate Retired(s: Loop, id: Id) {
    Removed(s, id) || (id in s.added && Doomed(s, id))
  }

  /** A handle that will run neither callback of its chain again, nor try a next address. */
  ghost predicate Spent(s: Loop, id: Id) {
    || Retired(s, id)
    || IsConnected(s, id)
    || (s.ctl.Run? && s.ctl.hdl == id && (s.ctl.pc.InConnect? || s.ctl.pc.InFail?))
  }

  ghost predicate ChainInv(s: Loop) {
    && (forall c | c in s.chains ::
          && c < s.nextChain
          && 1 <= s.chains[c].tried <= s.chains[c].len
          && s.chains[c].cur < s.next
          && (s.chains[c].cur in s.objs ==>
                s.objs[s.chains[c].cur].kind.Client? && s.objs[s.chains[c].cur].kind.chain == c))
    && (forall id | id in s.objs && s.objs[id].kind.Client? ::
          var k := s.objs[id].kind;
          && k.chain in s.chains
          && k.pos < s.chains[k.chain].tried
          && (id == s.chains[k.chain].cur <==> k.pos == s.chains[k.chain].tried - 1)
          && (id != s.chains[k.chain].cur ==> Retired(s, id) && !k.connected))
    && (forall c | c in s.chains && s.chains[c].done && s.chains[c].cur in s.objs :: Spent(s, s.chains[c].cur))
  }

  /** The addresses tried for a chain, in order. */
  ghost function Tried(log: seq<Event>, c: Chain): seq<nat> {
    if log == [] then []
    else
      var e := log[|log| - 1];
      Tried(log[..|log| - 1], c) + if e.Attempt? && e.chain == c then [e.pos] else []
  }

  ghost predicate Concludes(e: Event, c: Chain) {
    (e.Connected? || e.Failed?) && e.chain == c
  }

  /** How often the connect or fail callback of a chain ran. */
  ghost function Conclusions(log: seq<Event>, c: Chain): nat {
    if log == [] then 0
    else Conclusions(log[..|log| - 1], c) + if Concludes(log[|log| - 1], c) then 1 else 0
  }

  ghost function Upto(n: nat): seq<nat> {
    seq(n, i => i)
  }

  /** The log agrees with the history kept in `chains`; no attempt and no second conclusion follows one. */
  ghost predicate HistoryInv(chains: map<Chain, Attempts>, log: seq<Event>) {
    && (forall c | c in chains ::
          && Tried(log, c) == Upto(chains[c].tried)
          && Conclusions(log, c) == if chains[c].done then 1 else 0)
    && (forall c: Chain | c !in chains :: Tried(log, c) == [] && Conclusions(log, c) == 0)
    && ConclusionIsLast(log)
  }

  ghost predicate ConclusionIsLast(log: seq<Event>) {
    forall i, j | 0 <= i < j < |log| && (log[i].Connected? || log[i].Failed?) ::
      !Concludes(log[j], log[i].chain) && !(log[j].Attempt? && log[j].chain == log[i].chain)
  }

  ghost predicate Inv(s: Loop) {
    && FdInv(s) && RegInv(s) && TimerInv(s) && CtlInv(s)
    && LogInv(s) && DisconnectIsLast(s.log)
    && ChainInv(s) && HistoryInv(s.chains, s.log)
  }
}
