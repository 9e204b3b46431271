/** A connection, its socket and the event loop's dealings with it as a transition system. The theorems
    speak of every run, that is every interleaving. */
module Channel {
  import opened Bytes
  import opened Kernel
  import opened Transport

  /** Where `on_data` stands: not called, or called with the writable and readable bits not yet served. */
  datatype Phase = Parked | Handling(writable: bool, readable: bool)

  /** `sent` and `messages` record the calls of `send` and of the message callback. `accepted` is the
      stream `send` took charge of, `lost` the bytes of a `recv` that returned Err, `errors` the number of
      hard send errors; `failed` says that one of them hit a flush, `closed` that `on_data` returned false. */
  datatype Endpoint = Endpoint(
    c: Sender, out: OutBuf, inn: InBuf, phase: Phase, closed: bool,
    sent: seq<seq<byte>>, accepted: seq<byte>, errors: nat, failed: bool,
    messages: seq<seq<byte>>, lost: seq<byte>)

  ghost predicate Init(e: Endpoint) {
    && e.c == Sender(true, true, [], false)
    && e.out.Valid() && e.out.wire == [] && !e.out.noSpace && e.out.broken == 0
    && e.inn.read == [] && e.inn.avail == [] && !e.inn.fin
    && e.phase == Parked && !e.closed
    && e.sent == [] && e.accepted == [] && e.errors == 0 && !e.failed
    && e.messages == [] && e.lost == []
  }

  /** The program calls `send`: at any time, from any callback, even after the connection closed. */
  ghost predicate SendStep(e: Endpoint, data: seq<byte>, r: Outcome<nat>, e': Endpoint) {
    && SendPost(e.c, e.out, data, e'.c, e'.out, r)
    && e.out.wire <= e'.out.wire
    && e' == e.(c := e'.c, out := e'.out, sent := e.sent + [data],
                accepted := e.accepted + Charged(data, e.out, e'.out, r),
                errors := e.errors + if r.Err? then 1 else 0)
  }

  /** epoll_wait reports the connection: at least the directions that have an edge, perhaps more. */
  ghost predicate ReportStep(e: Endpoint, writable: bool, readable: bool, e': Endpoint) {
    && e.phase.Parked? && !e.closed
    && (e.out.edge ==> writable) && (e.inn.edge ==> readable)
    && e' == e.(out := e.out.(edge := false), inn := e.inn.(edge := false), phase := Handling(writable, readable))
  }

  /** `on_data` serves EPOLLOUT. The outcome of the flush is ignored. */
  ghost predicate FlushStep(e: Endpoint, r: Outcome<nat>, e': Endpoint) {
    && e.phase.Handling? && e.phase.writable && !e.closed
    && FlushPost(e.c, e.out, e'.c, e'.out, r)
    && e' == e.(c := e'.c, out := e'.out, phase := e.phase.(writable := false),
                errors := e.errors + if r.Err? then 1 else 0, failed := e.failed || r.Err?)
  }

  /** `on_data` serves EPOLLIN with one `recv`; what it gathered goes to the message callback in one piece,
      unless it returned Err, which closes. */
  ghost predicate RecvStep(e: Endpoint, buf: seq<byte>, r: Outcome<bool>, e': Endpoint) {
    && e.phase.Handling? && e.phase.readable && !e.phase.writable && !e.closed
    && RecvPost(e.inn, MAX_MESSAGE, e'.inn, buf, r)
    && match r
       case Ok(again) => e' == e.(inn := e'.inn, messages := e.messages + [buf], phase := Handling(false, again))
       case Err => e' == e.(inn := e'.inn, lost := e.lost + buf, phase := Parked, closed := true)
  }

  /** `on_data` returns true once both bits are served. */
  ghost predicate KeepStep(e: Endpoint, e': Endpoint) {
    && e.phase == Handling(false, false)
    && e' == e.(phase := Parked)
  }

  /** `on_data` returns false: not connected, EPOLLHUP, EPOLLERR or EPOLLRDHUP. */
  ghost predicate CloseStep(e: Endpoint, e': Endpoint) {
    && e.phase.Handling?
    && e' == e.(phase := Parked, closed := true)
  }

  /** The kernel on its own: draining, the end of connecting, arrival of bytes and of the end of the stream,
      needless reports. */
  ghost predicate KernelStep(e: Endpoint, e': Endpoint) {
    || (exists n: nat | 1 <= n <= e.out.Used() :: e' == e.(out := Drained(e.out, n)))
    || (e.out.connecting && e' == e.(out := Established(e.out)))
    || (exists n: nat | 1 <= n <= |e.inn.incoming| :: e' == e.(inn := Arrived(e.inn, n)))
    || (e.inn.incoming == [] && e' == e.(inn := e.inn.(fin := true, edge := true)))
    || e' == e.(out := e.out.(edge := true))
    || e' == e.(inn := e.inn.(edge := true))
  }

  /** The steps that neither call `send` nor `recv` on the socket. */
  ghost predicate QuietStep(e: Endpoint, e': Endpoint) {
    || (exists w, r :: ReportStep(e, w, r, e'))
    || KeepStep(e, e')
    || CloseStep(e, e')
    || KernelStep(e, e')
  }

  ghost predicate Step(e: Endpoint, e': Endpoint) {
    || (exists data, r :: SendStep(e, data, r, e'))
    || (exists r :: FlushStep(e, r, e'))
    || (exists buf, r :: RecvStep(e, buf, r, e'))
    || QuietStep(e, e')
  }

  ghost predicate IsRun(run: seq<Endpoint>) {
    && |run| > 0
    && forall i, j {:trigger Step(run[i], run[j])} | 0 <= i < j < |run| && j == i + 1 :: Step(run[i], run[j])
  }

  ghost function Last(run: seq<Endpoint>): Endpoint
    requires |run| > 0
  {
    run[|run| - 1]
  }

  lemma Extend(run: seq<Endpoint>, e: Endpoint)
    requires IsRun(run) && Step(Last(run), e)
    ensures IsRun(run + [e]) && (run + [e])[0] == run[0] && Last(run + [e]) == e
  {
    var longer := run + [e];
    forall i, j | 0 <= i < j < |longer| && j == i + 1
      ensures Step(longer[i], longer[j])
    {
      if j < |run| {
        assert Step(run[i], run[j]);
      }
    }
  }

  lemma DropLast(run: seq<Endpoint>)
    requires IsRun(run) && |run| > 1
    ensures IsRun(run[..|run| - 1]) && Step(run[|run| - 2], Last(run))
  {
    var shorter := run[..|run| - 1];
    assert Step(run[|run| - 2], run[|run| - 1]);
    forall i, j | 0 <= i < j < |shorter| && j == i + 1
      ensures Step(shorter[i], shorter[j])
    {
      assert Step(run[i], run[j]);
    }
  }

  lemma ExtendBySend(run: seq<Endpoint>, data: seq<byte>, r: Outcome<nat>, e: Endpoint)
    requires IsRun(run) && SendStep(Last(run), data, r, e)
    ensures IsRun(run + [e]) && (run + [e])[0] == run[0] && Last(run + [e]) == e
  {
    Extend(run, e);
  }

  lemma ExtendByFlush(run: seq<Endpoint>, r: Outcome<nat>, e: Endpoint)
    requires IsRun(run) && FlushStep(Last(run), r, e)
    ensures IsRun(run + [e]) && (run + [e])[0] == run[0] && Last(run + [e]) == e
  {
    Extend(run, e);
  }

  lemma FlushIsStep(e: Endpoint, c: Sender, out: OutBuf, r: Outcome<nat>, e': Endpoint)
    requires e.phase.Handling? && e.phase.writable && !e.closed && FlushPost(e.c, e.out, c, out, r)
    requires e' == e.(c := c, out := out, phase := Handling(false, e.phase.readable),
                      errors := e.errors + if r.Err? then 1 else 0, failed := e.failed || r.Err?)
    ensures FlushStep(e, r, e')
  {
  }

  lemma ExtendByRecv(run: seq<Endpoint>, buf: seq<byte>, r: Outcome<bool>, e: Endpoint)
    requires IsRun(run) && RecvStep(Last(run), buf, r, e)
    ensures IsRun(run + [e]) && (run + [e])[0] == run[0] && Last(run + [e]) == e
  {
    Extend(run, e);
  }

  // ---------------------------------------------------------------------------------------------------
  // What every run keeps
  // ---------------------------------------------------------------------------------------------------

  /** A writability edge is owed by a kernel that refused a writer, or pending, or being served. */
  ghost predicate Wakeup(e: Endpoint) {
    e.out.noSpace || e.out.edge || (e.phase.Handling? && e.phase.writable)
  }

  /** The send side, even after hard errors: a connection that is not ready waits for an edge that will come. */
  ghost predicate FlagInv(e: Endpoint) {
    && Orderly(e.c)
    && (e.c.flushing ==> e.failed)
    && (!e.c.ready && !e.closed ==> Wakeup(e))
  }

  /** The stream while no flush has failed. */
  ghost predicate StreamInv(e: Endpoint) {
    && Owed(e.c, e.out) == e.accepted
    && (e.errors == 0 ==> e.accepted == Flat(e.sent))
  }

  /** The receive side. The last conjunct is the wakeup for unread data. */
  ghost predicate RecvInv(e: Endpoint) {
    && Flat(e.messages) + e.lost == e.inn.read
    && (!e.closed ==> e.lost == [])
    && (e.inn.Readable() && !e.closed ==> e.inn.edge || (e.phase.Handling? && e.phase.readable))
  }

  ghost predicate Inv(e: Endpoint) {
    && e.out.Valid()
    && FlagInv(e)
    && e.errors == e.out.broken
    && (!e.failed ==> StreamInv(e))
    && RecvInv(e)
    && (e.closed ==> e.phase.Parked?)
    && (e.failed ==> e.errors > 0)
  }

  lemma SendStepKeepsInv(e: Endpoint, data: seq<byte>, r: Outcome<nat>, e': Endpoint)
    requires Inv(e) && SendStep(e, data, r, e')
    ensures Inv(e')
  {
    if !e.failed {
      SendKeepsOrder(e.c, e.out, data, e'.c, e'.out, r);
      FlatSnoc(e.sent, data);
    }
  }

  lemma FlushStepKeepsInv(e: Endpoint, r: Outcome<nat>, e': Endpoint)
    requires Inv(e) && FlushStep(e, r, e')
    ensures Inv(e')
  {
    if r.Ok? {
      FlushTakesPrefix(e.c, e.out, e'.c, e'.out, r);
    } else {
      FailedFlush(e.c, e.out, e'.c, e'.out);
    }
  }

  lemma RecvStepKeepsInv(e: Endpoint, buf: seq<byte>, r: Outcome<bool>, e': Endpoint)
    requires Inv(e) && RecvStep(e, buf, r, e')
    ensures Inv(e')
  {
    assert e.lost == [];
    if r.Ok? {
      FlatSnoc(e.messages, buf);
    }
    assert Flat(e.messages) + e.lost + buf == Flat(e.messages) + (e.lost + buf);
  }

  lemma KernelStepKeepsInv(e: Endpoint, e': Endpoint)
    requires Inv(e) && KernelStep(e, e')
    ensures Inv(e')
  {
  }

  lemma QuietStepKeepsInv(e: Endpoint, e': Endpoint)
    requires Inv(e) && QuietStep(e, e')
    ensures Inv(e')
  {
    if KernelStep(e, e') {
      KernelStepKeepsInv(e, e');
    }
  }

  lemma StepKeepsInv(e: Endpoint, e': Endpoint)
    requires Inv(e) && Step(e, e')
    ensures Inv(e')
  {
    if data, r :| SendStep(e, data, r, e') {
      SendStepKeepsInv(e, data, r, e');
    } else if r :| FlushStep(e, r, e') {
      FlushStepKeepsInv(e, r, e');
    } else if buf, r :| RecvStep(e, buf, r, e') {
      RecvStepKeepsInv(e, buf, r, e');
    } else {
      QuietStepKeepsInv(e, e');
    }
  }

  lemma {:induction false} RunKeepsInv(run: seq<Endpoint>)
    requires IsRun(run) && Inv(run[0])
    ensures Inv(Last(run))
  {
    if |run| > 1 {
      DropLast(run);
      RunKeepsInv(run[..|run| - 1]);
      StepKeepsInv(run[|run| - 2], run[|run| - 1]);
    }
  }

  // ---------------------------------------------------------------------------------------------------
  // Theorems about one endpoint
  // ---------------------------------------------------------------------------------------------------

  /** Conservation and order. As long as no flush failed, what is on the wire followed by what is queued is
      the stream `send` took charge of; without any hard error that is every message, whole and in order. */
  lemma Conservation(run: seq<Endpoint>)
    requires IsRun(run) && Init(run[0]) && !Last(run).failed
    ensures Last(run).out.wire + Flat(Last(run).c.queue) == Last(run).accepted
    ensures Last(run).errors == 0 ==> Last(run).accepted == Flat(Last(run).sent)
  {
    RunKeepsInv(run);
  }

  /** Between operations: no flush is in progress, the ready flag holds exactly when the queue is empty, and
      the front of a queue is never an empty message. So a direct send never overtakes queued bytes. */
  lemma ReadyMeansEmpty(run: seq<Endpoint>)
    requires IsRun(run) && Init(run[0]) && !Last(run).failed
    ensures !Last(run).c.flushing
    ensures Last(run).c.ready <==> Last(run).c.queue == []
    ensures Last(run).c.queue != [] ==> Last(run).c.queue[0] != []
  {
    RunKeepsInv(run);
  }

  /** The flags after any run whatever: the flushing flag is left over exactly by flushes that failed, and
      without it the ready flag tells whether something is queued. */
  lemma FlushingMeansFailed(run: seq<Endpoint>)
    requires IsRun(run) && Init(run[0])
    ensures Last(run).c.flushing ==> Last(run).failed && Last(run).c.queue != []
    ensures !Last(run).c.flushing ==> (Last(run).c.ready <==> Last(run).c.queue == [])
    ensures Last(run).c.queue != [] ==> Last(run).c.queue[0] != []
  {
    RunKeepsInv(run);
  }

  /** No lost wakeup: while something is queued on an open connection, a writability edge is being served,
      is pending, or is owed by a kernel that is still connecting or has bytes to drain. Only one state is
      left out, the one in which a failed flush left the connection both ready and flushing. */
  lemma NoLostWakeup(run: seq<Endpoint>)
    requires IsRun(run) && Init(run[0]) && !Last(run).closed && Last(run).c.queue != []
    requires !(Last(run).c.ready && Last(run).c.flushing)
    ensures var e := Last(run);
            || (e.phase.Handling? && e.phase.writable)
            || e.out.edge
            || (e.out.noSpace && (e.out.connecting || e.out.Used() == e.out.cap > 0))
  {
    RunKeepsInv(run);
  }

  /** Up to and including the first hard send error, wherever it strikes, the wire is a prefix of the
      concatenated messages. */
  lemma FirstErrorKeepsPrefix(run: seq<Endpoint>)
    requires IsRun(run) && Init(run[0])
    requires |run| > 1 ==> run[|run| - 2].errors == 0
    ensures Last(run).out.wire <= Flat(Last(run).sent)
  {
    if |run| > 1 {
      DropLast(run);
      RunKeepsInv(run[..|run| - 1]);
      StepKeepsPrefix(run[|run| - 2], Last(run));
    }
  }

  lemma SendStepKeepsPrefix(e: Endpoint, data: seq<byte>, r: Outcome<nat>, e': Endpoint)
    requires Inv(e) && e.errors == 0 && SendStep(e, data, r, e')
    ensures e'.out.wire <= Flat(e'.sent)
  {
    var charged := Charged(data, e.out, e'.out, r);
    SendKeepsOrder(e.c, e.out, data, e'.c, e'.out, r);
    FlatSnoc(e.sent, data);
    calc {
      Flat(e'.sent);
      Flat(e.sent) + data;
      Owed(e.c, e.out) + (charged + data[|charged|..]);
      Owed(e.c, e.out) + charged + data[|charged|..];
      e'.out.wire + Flat(e'.c.queue) + data[|charged|..];
    }
  }

  lemma FlushStepKeepsPrefix(e: Endpoint, r: Outcome<nat>, e': Endpoint)
    requires Inv(e) && e.errors == 0 && FlushStep(e, r, e')
    ensures e'.out.wire <= Flat(e'.sent)
  {
    FlushKeepsPrefix(e.c, e.out, e'.c, e'.out, r);
  }

  lemma StepKeepsPrefix(e: Endpoint, e': Endpoint)
    requires Inv(e) && e.errors == 0 && Step(e, e')
    ensures e'.out.wire <= Flat(e'.sent)
  {
    if data, r :| SendStep(e, data, r, e') {
      SendStepKeepsPrefix(e, data, r, e');
    } else if r :| FlushStep(e, r, e') {
      FlushStepKeepsPrefix(e, r, e');
    } else {
      OtherStepsKeepWire(e, e');
      NoErrorMeansPrefix(e);
    }
  }

  lemma OtherStepsKeepWire(e: Endpoint, e': Endpoint)
    requires (exists buf, r :: RecvStep(e, buf, r, e')) || QuietStep(e, e')
    ensures e'.out.wire == e.out.wire && e'.c == e.c && e'.sent == e.sent && e'.accepted == e.accepted
  {
  }

  lemma NoErrorMeansPrefix(e: Endpoint)
    requires Inv(e) && e.errors == 0
    ensures e.out.wire <= Flat(e.sent)
  {
    assert Flat(e.sent) == e.out.wire + Flat(e.c.queue);
  }

  /** Delivered bytes are a prefix of the bytes read, all of them until the connection closes; and unread
      data on an open connection always has an edge pending or being served. */
  lemma ReceiveDrain(run: seq<Endpoint>)
    requires IsRun(run) && Init(run[0])
    ensures Flat(Last(run).messages) <= Last(run).inn.read
    ensures !Last(run).closed ==> Flat(Last(run).messages) == Last(run).inn.read
    ensures !Last(run).closed && Last(run).inn.Readable() ==>
              Last(run).inn.edge || (Last(run).phase.Handling? && Last(run).phase.readable)
  {
    RunKeepsInv(run);
  }
}
