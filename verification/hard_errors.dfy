/** What a hard send error inside a flush does: when the stream, the order of later messages and the wakeup
    survive it, and runs in which they do not. The flush leaves the connection both ready and flushing, with
    the failing message whole at the front of the queue. */
module HardErrors {
  import opened Bytes
  import opened Kernel
  import opened Transport
  import opened Channel
  import opened EndToEnd

  // ---------------------------------------------------------------------------------------------------
  // The stream
  // ---------------------------------------------------------------------------------------------------

  /** A kernel that takes `bytes`, letting everything drain at once, and then fails. */
  function Swallowed(k: OutBuf, bytes: seq<byte>): OutBuf {
    Since(k, bytes, |k.wire| + |bytes|, false).(broken := k.broken + 1)
  }

  /** A flush that breaks one byte into message `i`. */
  lemma BreaksInside(c: Sender, k: OutBuf, i: nat)
    requires c.fdOk && k.Valid() && i < |c.queue| && |c.queue[i]| > 1
    ensures var bytes := Flat(c.queue[..i]) + c.queue[i][..1];
            FlushPost(c, k, Sender(true, true, c.queue[i..], true), Swallowed(k, bytes), Err)
  {
    var whole := |Flat(c.queue[..i])|;
    var bytes := Flat(c.queue[..i]) + c.queue[i][..1];
    FlatSplit(c.queue, i);
    assert Flat(c.queue)[..whole + 1] == bytes;
    FlushBroken(c, k, Swallowed(k, bytes), i, 1);
  }

  /** Before a flush one can tell whether a hard error may damage the stream: it cannot exactly when no
      queued message is longer than one byte. */
  lemma FlushIsSafeIff(c: Sender, k: OutBuf)
    requires c.fdOk && k.Valid()
    ensures (forall c', k' | FlushPost(c, k, c', k', Err) :: Owed(c', k') == Owed(c, k))
            <==> forall i | 0 <= i < |c.queue| :: |c.queue[i]| <= 1
  {
    forall c', k' | FlushPost(c, k, c', k', Err) && forall i | 0 <= i < |c.queue| :: |c.queue[i]| <= 1
      ensures Owed(c', k') == Owed(c, k)
    {
      FailedFlush(c, k, c', k');
    }
    if i :| 0 <= i < |c.queue| && |c.queue[i]| > 1 {
      BreaksInside(c, k, i);
      var c' := Sender(true, true, c.queue[i..], true);
      FailedFlush(c, k, c', Swallowed(k, Flat(c.queue[..i]) + c.queue[i][..1]));
    }
  }

  // ---------------------------------------------------------------------------------------------------
  // The order of later messages
  // ---------------------------------------------------------------------------------------------------

  function Repeat(w: seq<byte>, n: nat): seq<byte> {
    if n == 0 then [] else w + Repeat(w, n - 1)
  }

  /** Both are repetitions of the same bytes. */
  ghost predicate Repetitions(x: seq<byte>, y: seq<byte>) {
    exists w, i: nat, j: nat :: x == Repeat(w, i) && y == Repeat(w, j)
  }

  lemma {:induction false} RepeatAdd(w: seq<byte>, i: nat, j: nat)
    ensures Repeat(w, i) + Repeat(w, j) == Repeat(w, i + j)
  {
    if i > 0 {
      RepeatAdd(w, i - 1, j);
    }
  }

  /** Two byte strings can be exchanged exactly when they are repetitions of the same bytes. */
  lemma {:induction false} ExchangedIff(x: seq<byte>, y: seq<byte>)
    ensures x + y == y + x <==> Repetitions(x, y)
    decreases |x| + |y|, |x|
  {
    if w, i: nat, j: nat :| x == Repeat(w, i) && y == Repeat(w, j) {
      RepeatAdd(w, i, j);
      RepeatAdd(w, j, i);
    }
    if x + y == y + x {
      if x == [] {
        assert Repeat(y, 0) == x && Repeat(y, 1) == y + Repeat(y, 0) == y;
      } else if |x| > |y| {
        ExchangedIff(y, x);
        var w, i: nat, j: nat :| y == Repeat(w, i) && x == Repeat(w, j);
      } else {
        var rest := y[|x|..];
        assert y == (y + x)[..|y|] == (x + y)[..|y|] == x + y[..|y| - |x|];
        assert y[..|x|] == x && y == x + rest;
        assert x + (x + rest) == x + (rest + x);
        assert x + rest == (x + (x + rest))[|x|..] == (x + (rest + x))[|x|..] == rest + x;
        ExchangedIff(x, rest);
        var w, i: nat, j: nat :| x == Repeat(w, i) && rest == Repeat(w, j);
        RepeatAdd(w, i, j);
      }
    }
  }

  /** What became of a message when the kernel took `n` bytes of it in the state a failed flush leaves behind:
      the bytes overtook the queue and, unless the `send` returned an error, the others are dropped. It does no
      harm exactly if nothing was dropped and the bytes can be exchanged with the queue. */
  ghost predicate Harmless(c: Sender, data: seq<byte>, n: nat, r: Outcome<nat>)
    requires n <= |data|
  {
    (r.Ok? ==> n == |data|) && Repetitions(data[..n], Flat(c.queue))
  }

  /** A `send` keeps content and order of what it took charge of, except while a failed flush has left the
      connection ready and flushing: then it does exactly if it is harmless. */
  lemma SendKeepsOrderIff(c: Sender, k: OutBuf, data: seq<byte>, c': Sender, k': OutBuf, r: Outcome<nat>)
    requires Orderly(c) && SendPost(c, k, data, c', k', r)
    ensures 0 <= |k'.wire| - |k.wire| <= |data| && k.wire <= k'.wire
    ensures Owed(c', k') == Owed(c, k) + Charged(data, k, k', r)
            <==> !(c.ready && c.flushing) || Harmless(c, data, |k'.wire| - |k.wire|, r)
    ensures |Owed(c', k')| == |Owed(c, k)| + |Charged(data, k, k', r)|
            <==> !(c.ready && c.flushing) || (r.Ok? ==> |k'.wire| - |k.wire| == |data|)
  {
    if c.ready && c.flushing {
      var n, q := |k'.wire| - |k.wire|, Flat(c.queue);
      assert Owed(c', k') == k.wire + data[..n] + q;
      ExchangedIff(data[..n], q);
      AfterPrefix(k.wire, data[..n] + q, q + data[..n]);
      assert k.wire + data[..n] + q == k.wire + (data[..n] + q);
      assert k.wire + q + data[..n] == k.wire + (q + data[..n]);
      assert data[..|data|] == data;
    } else if c.ready {
      SendKeepsOrder(c, k, data, c', k', r);
    } else {
      FlatSnoc(c.queue, data);
      assert k.wire + Flat(c.queue) + data == k.wire + (Flat(c.queue) + data);
    }
  }

  lemma AfterPrefix(p: seq<byte>, x: seq<byte>, y: seq<byte>)
    ensures p + x == p + y <==> x == y
  {
    if p + x == p + y {
      assert x == (p + x)[|p|..] == (p + y)[|p|..] == y;
    }
  }

  /** What the kernel may do with a `send` by a ready connection: take all it has room for, or be refused
      beyond its room. */
  lemma TakesAll(c: Sender, k: OutBuf, data: seq<byte>)
    requires c.fdOk && c.ready && k.Valid() && |data| <= k.Free()
    ensures SendPost(c, k, data, c, Since(k, data, k.drained, k.connecting), Ok(|data|))
  {
  }

  lemma RefusesRest(c: Sender, k: OutBuf, data: seq<byte>)
    requires c.fdOk && c.ready && c.flushing && k.Valid() && k.Free() < |data|
    ensures var n := k.Free();
            var k' := Since(k, data[..n], k.drained, k.connecting).(noSpace := true);
            SendPost(c, k, data, c.(ready := false), k', Ok(n))
  {
  }

  /** A kernel that takes `bytes` and then fails. */
  function Failing(k: OutBuf, bytes: seq<byte>): OutBuf {
    Since(k, bytes, k.drained, k.connecting).(broken := k.broken + 1)
  }

  lemma BreaksWithin(c: Sender, k: OutBuf, data: seq<byte>, n: nat)
    requires c.fdOk && c.ready && k.Valid() && n < |data| <= k.Free()
    ensures SendPost(c, k, data, c, Failing(k, data[..n]), Err)
  {
  }

  lemma RoomIsTaken(c: Sender, k: OutBuf, data: seq<byte>, c': Sender, k': OutBuf, r: Outcome<nat>)
    requires c.fdOk && c.ready && k.Valid() && |data| <= k.Free() && SendPost(c, k, data, c', k', r) && r.Ok?
    ensures |k'.wire| - |k.wire| == |data|
  {
  }

  /** A `send` after which the stream is what it was, followed by what the `send` took charge of. */
  ghost predicate Appends(c: Sender, k: OutBuf, data: seq<byte>, c': Sender, k': OutBuf, r: Outcome<nat>) {
    k.wire <= k'.wire && Owed(c', k') == Owed(c, k) + Charged(data, k, k', r)
  }

  /** Before a `send` one can tell whether it is safe if it meets no hard error: the connection is not in the
      state a failed flush leaves behind, or the send buffer has room for the message and the message can be
      exchanged with the queue. */
  lemma SendIsSafeIff(c: Sender, k: OutBuf, data: seq<byte>)
    requires Orderly(c) && k.Valid()
    ensures (forall c', k', r | SendPost(c, k, data, c', k', r) && r.Ok? :: Appends(c, k, data, c', k', r))
            <==> !(c.ready && c.flushing) || (|data| <= k.Free() && Repetitions(data, Flat(c.queue)))
  {
    hide SendPost, Repetitions, Owed, Charged;
    assert data[..|data|] == data;
    forall c', k', r | SendPost(c, k, data, c', k', r) && r.Ok?
      ensures 0 <= |k'.wire| - |k.wire| <= |data|
      ensures Appends(c, k, data, c', k', r)
              <==> !(c.ready && c.flushing) || Harmless(c, data, |k'.wire| - |k.wire|, r)
      ensures c.ready && |data| <= k.Free() ==> |k'.wire| - |k.wire| == |data|
    {
      SendKeepsOrderIff(c, k, data, c', k', r);
      if c.ready && |data| <= k.Free() {
        RoomIsTaken(c, k, data, c', k', r);
      }
    }
    if c.ready && c.flushing {
      if |data| <= k.Free() {
        TakesAll(c, k, data);
        var k' := Since(k, data, k.drained, k.connecting);
        assert SendPost(c, k, data, c, k', Ok(|data|)) && |k'.wire| - |k.wire| == |data|;
      } else {
        RefusesRest(c, k, data);
        var n := k.Free();
        var k' := Since(k, data[..n], k.drained, k.connecting).(noSpace := true);
        assert SendPost(c, k, data, c.(ready := false), k', Ok(n)) && |k'.wire| - |k.wire| == n;
      }
    }
  }

  /** And whether it is safe even then: every part of the message must be exchangeable with the queue. */
  lemma SendIsAlwaysSafeIff(c: Sender, k: OutBuf, data: seq<byte>)
    requires Orderly(c) && k.Valid()
    ensures (forall c', k', r | SendPost(c, k, data, c', k', r) :: Appends(c, k, data, c', k', r))
            <==> !(c.ready && c.flushing)
                 || (|data| <= k.Free() && forall n | 0 <= n <= |data| :: Repetitions(data[..n], Flat(c.queue)))
  {
    hide SendPost, Repetitions, Owed, Charged;
    SendIsSafeIff(c, k, data);
    assert data[..|data|] == data;
    forall c', k', r | SendPost(c, k, data, c', k', r)
      ensures 0 <= |k'.wire| - |k.wire| <= |data|
      ensures Appends(c, k, data, c', k', r)
              <==> !(c.ready && c.flushing) || Harmless(c, data, |k'.wire| - |k.wire|, r)
    {
      SendKeepsOrderIff(c, k, data, c', k', r);
    }
    if c.ready && c.flushing && |data| <= k.Free() {
      forall n | 0 <= n < |data| && !Repetitions(data[..n], Flat(c.queue))
        ensures exists c', k', r :: SendPost(c, k, data, c', k', r) && !Appends(c, k, data, c', k', r)
      {
        BreaksWithin(c, k, data, n);
        var k' := Failing(k, data[..n]);
        assert SendPost(c, k, data, c, k', Err) && |k'.wire| - |k.wire| == n;
        assert !Appends(c, k, data, c, k', Err);
      }
    }
  }

  // ---------------------------------------------------------------------------------------------------
  // The stream over runs with hard errors
  // ---------------------------------------------------------------------------------------------------

  /** Every byte `send` took charge of is on the wire or queued, once and in order. */
  ghost predicate Conserved(e: Endpoint) {
    Owed(e.c, e.out) == e.accepted
  }

  /** A `send` was harmless or not made in the state that a failed flush leaves behind. */
  ghost predicate CarefulSend(e: Endpoint, data: seq<byte>, r: Outcome<nat>, e': Endpoint) {
    var n := |e'.out.wire| - |e.out.wire|;
    e.c.ready && e.c.flushing ==> 0 <= n <= |data| && Harmless(e.c, data, n, r)
  }

  /** A failing flush stopped before the kernel had taken a byte of the failing message. */
  ghost predicate CleanBreak(e: Endpoint, e': Endpoint) {
    var i := |e.c.queue| - |e'.c.queue|;
    0 <= i <= |e.c.queue| && |e'.out.wire| - |e.out.wire| == |Flat(e.c.queue[..i])|
  }

  /** Nothing in the step disturbs the stream. */
  ghost predicate Careful(e: Endpoint, e': Endpoint) {
    && (forall data, r | SendStep(e, data, r, e') :: CarefulSend(e, data, r, e'))
    && (FlushStep(e, Err, e') ==> CleanBreak(e, e'))
  }

  lemma SendConservesIff(e: Endpoint, data: seq<byte>, r: Outcome<nat>, e': Endpoint)
    requires Inv(e) && Conserved(e) && SendStep(e, data, r, e')
    ensures Conserved(e') <==> CarefulSend(e, data, r, e')
  {
    hide Repetitions;
    SendKeepsOrderIff(e.c, e.out, data, e'.c, e'.out, r);
  }

  lemma FlushConservesIff(e: Endpoint, r: Outcome<nat>, e': Endpoint)
    requires Inv(e) && Conserved(e) && FlushStep(e, r, e')
    ensures Conserved(e') <==> r.Ok? || CleanBreak(e, e')
  {
    if r.Ok? {
      FlushTakesPrefix(e.c, e.out, e'.c, e'.out, r);
    } else {
      FailedFlush(e.c, e.out, e'.c, e'.out);
    }
  }

  /** A send step is no flush step, and the calls of a send step are determined. */
  lemma SendIsNoFlush(e: Endpoint, data: seq<byte>, r: Outcome<nat>, e': Endpoint)
    requires SendStep(e, data, r, e')
    ensures forall r' :: !FlushStep(e, r', e')
    ensures forall data', r' | SendStep(e, data', r', e') :: data' == data
  {
    forall data', r' | SendStep(e, data', r', e')
      ensures data' == data
    {
      assert (e.sent + [data])[|e.sent|] == data && (e.sent + [data'])[|e.sent|] == data';
    }
  }

  lemma FlushOutcome(e: Endpoint, r: Outcome<nat>, e': Endpoint)
    requires FlushStep(e, r, e')
    ensures r.Err? <==> FlushStep(e, Err, e')
    ensures forall data, r' :: !SendStep(e, data, r', e')
  {
  }

  /** From a conserved stream a step leads to a conserved stream exactly if it is careful. */
  lemma StepConservesIff(e: Endpoint, e': Endpoint)
    requires Inv(e) && Conserved(e) && Step(e, e')
    ensures Conserved(e') <==> Careful(e, e')
  {
    hide Inv, Conserved, CarefulSend, CleanBreak, SendStep, FlushStep, RecvStep, QuietStep;
    if data, r :| SendStep(e, data, r, e') {
      SendIsNoFlush(e, data, r, e');
      forall data', r' | SendStep(e, data', r', e')
        ensures Conserved(e') <==> CarefulSend(e, data', r', e')
      {
        SendConservesIff(e, data', r', e');
      }
    } else if r :| FlushStep(e, r, e') {
      FlushOutcome(e, r, e');
      FlushConservesIff(e, r, e');
    } else {
      OthersConserve(e, e');
    }
  }

  lemma OthersConserve(e: Endpoint, e': Endpoint)
    requires (exists buf, r :: RecvStep(e, buf, r, e')) || QuietStep(e, e')
    ensures Conserved(e') <==> Conserved(e)
  {
    hide RecvStep, QuietStep;
    OtherStepsKeepWire(e, e');
  }

  /** Conservation over runs with hard errors: as long as every failing flush breaks cleanly and every `send`
      in the state it leaves behind is harmless, what is on the wire followed by what is queued is the stream
      `send` took charge of; and the first step that is not so disturbs it. */
  lemma {:induction false} ConservedWhileCareful(run: seq<Endpoint>)
    requires IsRun(run) && Init(run[0])
    requires forall i, j {:trigger Careful(run[i], run[j])} | 0 <= i < j < |run| - 1 && j == i + 1 ::
               Careful(run[i], run[j])
    ensures |run| == 1 ==> Conserved(Last(run))
    ensures |run| > 1 ==> Conserved(run[|run| - 2]) && (Conserved(Last(run)) <==> Careful(run[|run| - 2], Last(run)))
  {
    hide Step, Inv, Careful;
    InitIsConserved(run[0]);
    if |run| > 1 {
      DropLast(run);
      var shorter := run[..|run| - 1];
      ConservedWhileCareful(shorter);
      assert |shorter| > 1 ==> Careful(run[|run| - 3], run[|run| - 2]);
      RunKeepsInv(shorter) by { InitIsConserved(run[0]); }
      StepConservesIff(run[|run| - 2], Last(run));
    }
  }

  lemma InitIsConserved(e: Endpoint)
    requires Init(e)
    ensures Inv(e) && Conserved(e)
  {
  }

  // ---------------------------------------------------------------------------------------------------
  // The wakeup
  // ---------------------------------------------------------------------------------------------------

  /** After a failed flush something is queued, and the wakeup for it survives exactly when the kernel still
      owed an edge or had one pending before the flush, or the connection came to stand during it. */
  lemma WakeupAfterFailedFlush(e: Endpoint, e': Endpoint)
    requires Inv(e) && FlushStep(e, Err, e')
    ensures e'.c.queue != [] && e'.c.ready && e'.c.flushing
    ensures Wakeup(e') <==> e.out.noSpace || e.out.edge || (e.out.connecting && !e'.out.connecting)
  {
    FailedFlush(e.c, e.out, e'.c, e'.out);
  }

  /** Before a flush one can tell whether a hard error may lose the wakeup. */
  lemma WakeupIsSafeIff(e: Endpoint)
    requires Inv(e) && e.phase.Handling? && e.phase.writable && !e.closed && e.c.queue != []
    ensures (forall e' | FlushStep(e, Err, e') :: Wakeup(e')) <==> e.out.noSpace || e.out.edge
  {
    hide FlushStep;
    forall e' | FlushStep(e, Err, e')
      ensures Wakeup(e') <==> e.out.noSpace || e.out.edge || (e.out.connecting && !e'.out.connecting)
    {
      WakeupAfterFailedFlush(e, e');
    }
    BreaksAtOnce(e);
  }

  function BrokenAtOnce(e: Endpoint): Endpoint
    requires e.phase.Handling?
  {
    e.(c := e.c.(ready := true, flushing := true), out := Failing(e.out, []),
       phase := Handling(false, e.phase.readable), errors := e.errors + 1, failed := true)
  }

  lemma BreaksAtOnce(e: Endpoint)
    requires e.out.Valid() && e.c.fdOk && e.phase.Handling? && e.phase.writable && !e.closed
    requires e.c.queue != [] && e.c.queue[0] != []
    ensures FlushStep(e, Err, BrokenAtOnce(e))
  {
    var q, k := e.c.queue, Failing(e.out, []);
    assert e.out.wire + [] == e.out.wire;
    assert q[..0] == [] && q[0..] == q && Flat(q)[..0] == [];
    FlushBroken(e.c, e.out, k, 0, 0);
    FlushIsStep(e, e.c.(ready := true, flushing := true), k, Err, BrokenAtOnce(e));
  }

  /** When the kernel and the event loop have nothing left to do for an open connection, everything has left
      its queue exactly when no failed flush has left the flushing flag behind. */
  lemma StillMeansFlushedIff(run: seq<Endpoint>)
    requires IsRun(run) && Init(run[0]) && Still(Last(run)) && !Last(run).closed
    ensures Last(run).c.queue == [] <==> !Last(run).c.flushing
  {
    RunKeepsInv(run);
  }

  // ---------------------------------------------------------------------------------------------------
  // Runs that show it
  // ---------------------------------------------------------------------------------------------------

  /** A send buffer of one byte is given three, and the first drains. */
  function Created(): Endpoint {
    Endpoint(Sender(true, true, [], false), OutBuf(1, [], 0, false, false, false, 0),
             InBuf([], [], [], false, false, 0), Parked, false, [], [], 0, false, [], [])
  }

  function Queued(): Endpoint {
    Created().(c := Sender(true, false, [[2, 3]], false), out := OutBuf(1, [1], 0, true, false, false, 0),
               sent := [[1, 2, 3]], accepted := [1, 2, 3])
  }

  function Woken(): Endpoint {
    Queued().(out := OutBuf(1, [1], 1, false, true, false, 0))
  }

  function Reported(): Endpoint {
    Queued().(out := OutBuf(1, [1], 1, false, false, false, 0), phase := Handling(true, false))
  }

  /** The flush meets a hard error after one byte; the next one, upon a needless report, succeeds. */
  function BrokenInside(): Endpoint {
    Reported().(c := Sender(true, true, [[2, 3]], true), out := OutBuf(1, [1, 2], 1, false, false, false, 1),
                phase := Handling(false, false), errors := 1, failed := true)
  }

  function InsideParked(): Endpoint {
    BrokenInside().(phase := Parked)
  }

  function InsideDrained(): Endpoint {
    InsideParked().(out := OutBuf(1, [1, 2], 2, false, false, false, 1))
  }

  function InsideReported(): Endpoint {
    InsideDrained().(phase := Handling(true, false))
  }

  function Repeated(): Endpoint {
    InsideDrained().(c := Sender(true, false, [[3]], false), out := OutBuf(1, [1, 2, 2], 2, true, false, false, 1),
                     phase := Handling(false, false))
  }

  /** The flush meets a hard error at once; then a message is sent that is taken, and one that is refused. */
  function BrokenBefore(): Endpoint {
    BrokenAtOnce(Reported())
  }

  function Stalled(): Endpoint {
    BrokenBefore().(phase := Parked)
  }

  function Overtaken(): Endpoint {
    Stalled().(out := OutBuf(1, [1, 9], 1, false, false, false, 1), sent := [[1, 2, 3], [9]], accepted := [1, 2, 3, 9])
  }

  function Dropped(): Endpoint {
    Overtaken().(c := Sender(true, false, [[2, 3]], true), out := OutBuf(1, [1, 9], 1, true, false, false, 1),
                 sent := [[1, 2, 3], [9], [8]], accepted := [1, 2, 3, 9, 8])
  }

  lemma QueuesRest()
    ensures Step(Created(), Queued())
  {
    assert [1, 2, 3][..1] == [1] && [1, 2, 3][1..] == [2, 3];
    assert SendStep(Created(), [1, 2, 3], Ok(1), Queued());
  }

  /** One byte drains. */
  lemma DrainIsStep(e: Endpoint)
    requires 1 <= e.out.Used()
    ensures Step(e, e.(out := Drained(e.out, 1)))
  {
    hide SendStep, FlushStep, RecvStep, ReportStep, CloseStep, KeepStep;
    assert KernelStep(e, e.(out := Drained(e.out, 1)));
  }

  lemma Wakes()
    ensures Step(Queued(), Woken())
  {
    hide Step;
    DrainIsStep(Queued());
    assert Woken() == Queued().(out := Drained(Queued().out, 1));
  }

  lemma Reports()
    ensures Step(Woken(), Reported())
  {
    assert ReportStep(Woken(), true, false, Reported());
  }

  lemma FlatOne(m: seq<byte>)
    ensures Flat([m]) == m
  {
    FlatSnoc([], m);
    assert [m] == [] + [m];
  }

  lemma BreaksAfterOne()
    ensures Step(Reported(), BrokenInside())
  {
    var e, q := Reported(), [[2, 3]];
    FlatOne([2, 3]);
    assert q[..0] == [] && q[0..] == q && Flat(q)[..1] == [2];
    FlushBroken(e.c, e.out, BrokenInside().out, 0, 1);
    assert FlushStep(e, Err, BrokenInside());
  }

  lemma Parks()
    ensures Step(BrokenInside(), InsideParked()) && Step(BrokenBefore(), Stalled())
  {
    assert KeepStep(BrokenInside(), InsideParked()) && KeepStep(BrokenBefore(), Stalled());
  }

  lemma DrainsAgain()
    ensures Step(InsideParked(), InsideDrained())
  {
    hide Step;
    DrainIsStep(InsideParked());
    assert InsideDrained() == InsideParked().(out := Drained(InsideParked().out, 1));
  }

  lemma ReportsAgain()
    ensures Step(InsideDrained(), InsideReported())
  {
    assert ReportStep(InsideDrained(), true, false, InsideReported());
  }

  lemma SendsAgain()
    ensures Step(InsideReported(), Repeated())
  {
    var e, q := InsideReported(), [[2, 3]];
    FlatOne([2, 3]);
    assert q[..0] == [] && q[0 + 1..] == [] && Flat(q)[..1] == [2] && [2, 3][1..] == [3];
    assert [[2, 3][1..]] + q[0 + 1..] == [[3]];
    FlushRefused(e.c, e.out, Repeated().out, 0, 1);
    assert FlushStep(e, Ok(0), Repeated());
  }

  lemma BreaksBefore()
    ensures Step(Reported(), BrokenBefore())
  {
    BreaksAtOnce(Reported());
  }

  lemma Overtakes()
    ensures Step(Stalled(), Overtaken())
  {
    assert [1] + [9] == [1, 9] && [[1, 2, 3]] + [[9]] == [[1, 2, 3], [9]];
    assert SendStep(Stalled(), [9], Ok(1), Overtaken());
  }

  lemma Drops()
    ensures Step(Overtaken(), Dropped())
  {
    assert [8][..0] == [] && [1, 9] + [] == [1, 9];
    assert [[1, 2, 3], [9]] + [[8]] == [[1, 2, 3], [9], [8]];
    assert SendStep(Overtaken(), [8], Ok(0), Dropped());
  }

  lemma RepeatingRun()
    ensures IsRun([Created(), Queued(), Woken(), Reported(), BrokenInside(), InsideParked(), InsideDrained(),
                   InsideReported(), Repeated()])
  {
    hide Step;
    QueuesRest();
    Wakes();
    Reports();
    BreaksAfterOne();
    Parks();
    DrainsAgain();
    ReportsAgain();
    SendsAgain();
  }

  lemma StallingRun()
    ensures IsRun([Created(), Queued(), Woken(), Reported(), BrokenBefore(), Stalled()])
  {
    hide Step;
    QueuesRest();
    Wakes();
    Reports();
    BreaksBefore();
    Parks();
  }

  lemma OvertakingRun()
    ensures IsRun([Created(), Queued(), Woken(), Reported(), BrokenBefore(), Stalled(), Overtaken(), Dropped()])
  {
    hide Step;
    QueuesRest();
    Wakes();
    Reports();
    BreaksBefore();
    Parks();
    Overtakes();
    Drops();
  }

  /** Past the first hard error the prefix property fails: a connection that keeps running after a failed
      flush sends the first bytes of the failing message twice. */
  lemma HardErrorRepeats()
    ensures exists run :: IsRun(run) && Init(run[0]) && Last(run).errors == 1 && !Last(run).closed
                          && !(Last(run).out.wire <= Flat(Last(run).sent))
  {
    hide Step;
    RepeatingRun();
    FlatOne([1, 2, 3]);
    var run := [Created(), Queued(), Woken(), Reported(), BrokenInside(), InsideParked(), InsideDrained(),
                InsideReported(), Repeated()];
    assert Last(run).out.wire[2] != Flat(Last(run).sent)[2];
    assert IsRun(run);
  }

  /** A failed flush that conserves the stream can still lose the wakeup: nothing is left to do, and bytes
      are queued on an open connection. */
  lemma HardErrorStalls()
    ensures exists run :: IsRun(run) && Init(run[0]) && Last(run).errors == 1 && Still(Last(run))
                          && !Last(run).closed && Last(run).c.queue != []
                          && Owed(Last(run).c, Last(run).out) == Flat(Last(run).sent)
  {
    hide Step;
    StallingRun();
    FlatOne([1, 2, 3]);
    FlatOne([2, 3]);
    var run := [Created(), Queued(), Woken(), Reported(), BrokenBefore(), Stalled()];
    assert Last(run) == Stalled() && [1] + [2, 3] == [1, 2, 3];
    assert IsRun(run);
  }

  /** From there one message overtakes the queue, and another is dropped although its `send` returned Ok. */
  lemma HardErrorOvertakesAndDrops()
    ensures exists run: seq<Endpoint>, n: nat ::
      && IsRun(run) && Init(run[0]) && |run| == n + 2 && run[n].errors == run[n + 1].errors == 1
      && run[n].sent == [[1, 2, 3], [9]] && Owed(run[n].c, run[n].out) == [1, 9, 2, 3]
      && SendStep(run[n], [8], Ok(0), run[n + 1]) && 8 !in Owed(run[n + 1].c, run[n + 1].out)
  {
    hide Step;
    OvertakingRun();
    FlatOne([2, 3]);
    var run := [Created(), Queued(), Woken(), Reported(), BrokenBefore(), Stalled(), Overtaken(), Dropped()];
    assert [1, 9] + [2, 3] == [1, 9, 2, 3];
    assert run[6] == Overtaken() && run[7] == Dropped();
    assert [8][..0] == [] && [1, 9] + [] == [1, 9] && [[1, 2, 3], [9]] + [[8]] == [[1, 2, 3], [9], [8]];
    assert SendStep(run[6], [8], Ok(0), run[6 + 1]);
    assert IsRun(run) && |run| == 6 + 2;
  }
}
