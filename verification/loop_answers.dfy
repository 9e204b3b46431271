/** What the handler of an event comes to, told by the event bits, the answer of getsockopt and what the
    connection itself does: which callbacks run, which address is tried next, and whether the handle is kept. */
module LoopAnswers {
  import opened LoopModel
  import opened LoopInvariant
  import opened LoopSteps
  import opened LoopTheorems
  import opened LoopProgram

  /** What getsockopt(SO_ERROR) says about a pending connect. */
  datatype SoError = CallFails | NoError | ConnectFailed

  /** What `on_data` of a connection does once it is connected: how many messages it delivers and whether it
      closes; and whether a disconnect callback is set. */
  datatype Talk = Talk(messages: nat, closes: bool, hasDisconnectCb: bool)

  /** One event of epoll_wait with what it meets. */
  datatype Report = Report(fd: Fd, writable: bool, so: SoError, talk: Talk)

  /** The addresses tried for a chain and its callbacks that ran are the same. */
  ghost predicate SameHistory(s: Loop, s': Loop, c: Chain) {
    Tried(s'.log, c) == Tried(s.log, c) && Conclusions(s'.log, c) == Conclusions(s.log, c)
  }

  /** An attempt `h` of chain `c` that awaited its connect at `s` has been decided by `so`: its connect callback
      ran; or the fail callback of the chain did, after a failed getsockopt or when every address had been tried;
      or else the first address not yet tried is being tried, by a new handle that has a timeout if `h` still
      had its timer. No other chain has changed. */
  ghost predicate Decides(s: Loop, h: Id, c: Chain, timer: Option<Id>, so: SoError, s': Loop)
    requires c in s.chains
  {
    var n := |Tried(s.log, c)|;
    && (forall d | d in s.chains && d != c :: SameHistory(s, s', d))
    && match so
       case NoError => Connected(c, h) in s'.log && Tried(s'.log, c) == Tried(s.log, c) && Conclusions(s'.log, c) == 1
       case CallFails => Failed(c, h) in s'.log && Tried(s'.log, c) == Tried(s.log, c) && Conclusions(s'.log, c) == 1
       case ConnectFailed =>
         if n == s.chains[c].len then
           Failed(c, h) in s'.log && Tried(s'.log, c) == Tried(s.log, c) && Conclusions(s'.log, c) == 1
         else
           && n < s.chains[c].len
           && Tried(s'.log, c) == Tried(s.log, c) + [n] && Conclusions(s'.log, c) == 0
           && s.log + [Attempt(c, n)] + TimeoutOfNext(s, timer) <= s'.log
  }

  ghost function TimeoutOfNext(s: Loop, timer: Option<Id>): seq<Event> {
    if timer.Some? && timer.value in s.objs && EPOLL in s.objs && s.objs[EPOLL].fd.Some?
    then [Armed(s.next + 1, s.next)] else []
  }

  lemma SameChainSameHistory(s: Loop, s': Loop, c: Chain)
    requires Inv(s) && Inv(s') && c in s.chains && c in s'.chains && s'.chains[c] == s.chains[c]
    ensures SameHistory(s, s', c)
  {
    hide Inv;
    HistoryOfChain(s, c);
    HistoryOfChain(s', c);
  }

  lemma KeptHistories(s: Loop, s': Loop)
    requires Inv(s) && Inv(s') && KeepsChains(s, s')
    ensures forall c | c in s.chains :: SameHistory(s, s', c)
  {
    hide Inv, SameHistory;
    forall c | c in s.chains
      ensures SameHistory(s, s', c)
    {
      SameChainSameHistory(s, s', c);
    }
  }

  /** What was decided stays decided, whatever else happens that keeps the chains. */
  lemma DecidedLater(s: Loop, h: Id, c: Chain, timer: Option<Id>, so: SoError, s1: Loop, s2: Loop)
    requires c in s.chains && s.chains.Keys <= s1.chains.Keys && Decides(s, h, c, timer, so, s1)
    requires Inv(s1) && Inv(s2) && KeepsChains(s1, s2)
    ensures Decides(s, h, c, timer, so, s2)
  {
    hide Inv, TimeoutOfNext;
    KeptHistories(s1, s2);
    assert forall e | e in s1.log :: e in s2.log;
  }

  /** Where the dispatch stands and what destructors did does not matter. */
  lemma DecidesMoved(s: Loop, h: Id, c: Chain, timer: Option<Id>, so: SoError, s': Loop, t: Loop, t': Loop)
    requires c in s.chains && Decides(s, h, c, timer, so, s') && t == s.(ctl := t.ctl) && t'.log == s'.log
    ensures Decides(t, h, c, timer, so, t')
  {
  }

  /** A chain that was concluded by a callback. */
  lemma Concluded(s: Loop, h: Id, c: Chain, timer: Option<Id>, so: SoError, s1: Loop)
    requires Inv(s) && Inv(s1) && c in s.chains && !s.chains[c].done
    requires s1.chains == s.chains[c := s.chains[c].(done := true)]
    requires (if so == NoError then Connected(c, h) else Failed(c, h)) in s1.log
    requires so == ConnectFailed ==> |Tried(s.log, c)| == s.chains[c].len
    ensures Decides(s, h, c, timer, so, s1)
  {
    hide Inv, SameHistory, TimeoutOfNext;
    HistoryOfChain(s, c);
    HistoryOfChain(s1, c);
    OthersKeepHistory(s, s1, c);
  }

  lemma OthersKeepHistory(s: Loop, s': Loop, c: Chain)
    requires Inv(s) && Inv(s') && forall d | d in s.chains && d != c :: d in s'.chains && s'.chains[d] == s.chains[d]
    ensures forall d | d in s.chains && d != c :: SameHistory(s, s', d)
  {
    hide Inv, SameHistory;
    forall d | d in s.chains && d != c
      ensures SameHistory(s, s', d)
    {
      SameChainSameHistory(s, s', d);
    }
  }

  /** A chain that goes on with its next address. */
  lemma GoesOn(s: Loop, h: Id, c: Chain, timer: Option<Id>, s1: Loop)
    requires Inv(s) && Inv(s1) && c in s.chains && !s.chains[c].done && s.chains[c].tried < s.chains[c].len
    requires s1.chains == s.chains[c := Attempts(s.chains[c].len, s.chains[c].tried + 1, s.next, false)]
    requires s1.log == s.log + [Attempt(c, s.chains[c].tried)] + TimeoutOfNext(s, timer)
    ensures Decides(s, h, c, timer, ConnectFailed, s1)
  {
    hide Inv, SameHistory, TimeoutOfNext;
    HistoryOfChain(s, c);
    HistoryOfChain(s1, c);
    OthersKeepHistory(s, s1, c);
    assert Upto(s.chains[c].tried + 1) == Upto(s.chains[c].tried) + [s.chains[c].tried];
  }

  // ---------------------------------------------------------------------------------------------------
  // The handler
  // ---------------------------------------------------------------------------------------------------

  /** The event comes to a client that awaits its connect and is writable, so getsockopt is asked. */
  predicate Asks(kind: Kind, writable: bool) {
    kind.Client? && !kind.connected && writable
  }

  /** The handler got past `is_connected`. */
  predicate GetsPast(kind: Kind, r: Report) {
    !Asks(kind, r.writable) || r.so == NoError
  }

  /** How often `h` was given a message or a disconnect, and nobody else. */
  ghost predicate Voices(s: Loop, s': Loop, h: Id, messages: nat, disconnects: nat) {
    forall x: Id ::
      && multiset(s'.log)[Message(x)] == multiset(s.log)[Message(x)] + (if x == h then messages else 0)
      && multiset(s'.log)[Disconnected(x)] == multiset(s.log)[Disconnected(x)] + (if x == h then disconnects else 0)
  }

  /** `h` was given that many messages and disconnects, and the chains are as they were. */
  ghost predicate Said(s: Loop, s': Loop, h: Id, messages: nat, disconnects: nat) {
    KeepsChains(s, s') && Voices(s, s', h, messages, disconnects)
  }

  lemma SaidAdd(s: Loop, s1: Loop, s2: Loop, h: Id, m: nat, d: nat, m': nat, d': nat)
    requires Said(s, s1, h, m, d) && Said(s1, s2, h, m', d')
    ensures Said(s, s2, h, m + m', d + d')
  {
  }

  lemma SaidNothing(s: Loop, s': Loop, h: Id)
    requires s'.log == s.log && s'.chains == s.chains
    ensures Said(s, s', h, 0, 0)
  {
  }

  lemma SaidMessage(s: Loop, s': Loop, h: Id)
    requires s'.chains == s.chains && s'.log == s.log + [Message(h)]
    ensures Said(s, s', h, 1, 0)
  {
  }

  lemma SaidDisconnect(s: Loop, s': Loop, h: Id)
    requires s'.chains == s.chains && s'.log == s.log + [Disconnected(h)]
    ensures Said(s, s', h, 0, 1)
  {
  }

  lemma SaidAside(s: Loop, s': Loop, h: Id)
    requires Inv(s) && ByProgram(s, s')
    ensures Said(s, s', h, 0, 0)
  {
    hide Inv, ByProgram;
    ProgramIsAside(s, s');
  }

  /** What comes of the event `r` if it reaches handle `h`, registered with `timer`. */
  ghost predicate HandledAs(s: Loop, h: Id, timer: Option<Id>, r: Report, keep: bool, s': Loop)
    requires h in s.objs
  {
    var kind := s.objs[h].kind;
    if kind.Timer? then
      && !keep
      && s'.log == s.log + if kind.closure.Some? && Registered(s, kind.closure.value)
                           then [TimedOut(h, kind.closure.value)] else []
    else
      && (keep <==> GetsPast(kind, r) && !r.talk.closes)
      && Voices(s, s', h, if GetsPast(kind, r) then r.talk.messages else 0,
                if !keep && r.talk.hasDisconnectCb then 1 else 0)
      && if Asks(kind, r.writable) then kind.chain in s.chains && Decides(s, h, kind.chain, timer, r.so, s')
         else forall c | c in s.chains :: SameHistory(s, s', c)
  }

  /** The attempt has been given up for good: getsockopt failed, or every address has been tried. */
  ghost predicate GivesUp(s: Loop, h: Id, r: Report)
    requires h in s.objs
  {
    var kind := s.objs[h].kind;
    && Asks(kind, r.writable) && kind.chain in s.chains
    && (r.so == CallFails || (r.so == ConnectFailed && |Tried(s.log, kind.chain)| == s.chains[kind.chain].len))
  }

  /** The event `r` was served between `s` and `s'` as the handle it reached demands. */
  ghost predicate ServedAs(s: Loop, r: Report, s': Loop) {
    if r.fd in s.reg then
      && s.reg[r.fd].hdl in s.objs
      && HandledAs(s, s.reg[r.fd].hdl, s.reg[r.fd].timer, r, r.fd in s'.reg, s')
      && (GivesUp(s, s.reg[r.fd].hdl, r) && s.reg[r.fd].hdl in s'.objs ==> s.reg[r.fd].hdl in s'.ext)
    else
      s'.log == s.log && s'.reg == s.reg && s'.chains == s.chains
  }

  // ---------------------------------------------------------------------------------------------------
  // The methods of the handler
  // ---------------------------------------------------------------------------------------------------

  /** No timer is aimed at `h`. */
  ghost predicate Unaimed(s: Loop, h: Id) {
    forall t | t in s.objs :: s.objs[t].kind != Timer(Some(h))
  }

  /** What connect_next does between `s` and `s'` when getsockopt answers `so`. An attempt that is given up is no
      timer's target any more. */
  ghost predicate ConnectsNext(s: Loop, so: SoError, connected: bool, s': Loop) {
    && Connecting(s)
    && var h, c := s.ctl.hdl, s.objs[s.ctl.hdl].kind.chain;
       && (connected <==> so == NoError)
       && s'.ctl == s.ctl.(pc := if connected then Open else Closing)
       && (connected ==> IsConnected(s', h))
       && s.chains.Keys <= s'.chains.Keys && SameVoices(s, s')
       && Decides(s, h, c, s.ctl.timer, so, s')
       && (so == CallFails || (so == ConnectFailed && |Tried(s.log, c)| == s.chains[c].len) ==> Unaimed(s', h))
  }

  /** What is_connected does. */
  ghost predicate FindsConnected(s: Loop, r: Report, connected: bool, s': Loop) {
    && InHandler(s, Enter)
    && (connected <==> GetsPast(s.objs[s.ctl.hdl].kind, r))
    && if Asks(s.objs[s.ctl.hdl].kind, r.writable) then ConnectsNext(s, r.so, connected, s')
       else s' == s.(ctl := s.ctl.(pc := Open))
  }

  /** What the conversation of a handler that stands at `Open` or `Closing` does. */
  ghost predicate Converses(s: Loop, talk: Talk, keep: bool, s': Loop) {
    && s.ctl.Run?
    && (keep <==> s.ctl.pc == Open && !talk.closes)
    && s'.ctl == s.ctl.(pc := Leave(keep))
    && Said(s, s', s.ctl.hdl, if s.ctl.pc == Open then talk.messages else 0,
            if !keep && talk.hasDisconnectCb then 1 else 0)
  }

  /** What the whole handler does. */
  ghost predicate Handles(s: Loop, r: Report, keep: bool, s': Loop) {
    && InHandler(s, Enter)
    && s'.ctl == s.ctl.(pc := Leave(keep))
    && HandledAs(s, s.ctl.hdl, s.ctl.timer, r, keep, s')
    && (GivesUp(s, s.ctl.hdl, r) ==> Unaimed(s', s.ctl.hdl))
  }
}
