/** Every exchange ends, and ends with everything delivered: without new calls of `send`, needless reports
    and hard send errors, the steps of the kernel and of the event loop use up a finite amount of work, and
    when none of them is possible any more both endpoints are still. */
module Quiescence {
  import opened Bytes
  import opened Kernel
  import opened Transport
  import opened Channel
  import opened EndToEnd
  import opened HardErrors

  /** What the kernel does by itself, needless reports apart. The end of the stream arrives once the peer
      has closed. */
  ghost predicate KernelWorkStep(e: Endpoint, peerClosed: bool, e': Endpoint) {
    || (exists n: nat | 1 <= n <= e.out.Used() :: e' == e.(out := Drained(e.out, n)))
    || (e.out.connecting && e' == e.(out := Established(e.out)))
    || (exists n: nat | 1 <= n <= |e.inn.incoming| :: e' == e.(inn := Arrived(e.inn, n)))
    || (peerClosed && e.inn.incoming == [] && !e.inn.fin && e' == e.(inn := e.inn.(fin := true, edge := true)))
  }

  /** A step of the kernel or the event loop that was called for. */
  ghost predicate WorkStep(e: Endpoint, peerClosed: bool, e': Endpoint) {
    || ((e.out.edge || e.inn.edge) && exists w, r :: ReportStep(e, w, r, e'))
    || (exists n: nat :: FlushStep(e, Ok(n), e'))
    || (exists buf, r :: RecvStep(e, buf, r, e'))
    || KeepStep(e, e')
    || CloseStep(e, e')
    || KernelWorkStep(e, peerClosed, e')
  }

  lemma WorkIsStep(e: Endpoint, peerClosed: bool, e': Endpoint)
    requires WorkStep(e, peerClosed, e')
    ensures Step(e, e')
  {
    if n: nat :| FlushStep(e, Ok(n), e') {
    } else if w, r :| ReportStep(e, w, r, e') {
    } else if buf, r :| RecvStep(e, buf, r, e') {
    }
  }

  function Bit(b: bool): nat {
    if b then 1 else 0
  }

  function PhaseWork(p: Phase): nat {
    if p.Parked? then 0 else 1 + Bit(p.writable) + Bit(p.readable)
  }

  function KernelWork(out: OutBuf, inn: InBuf): int {
    5 * out.Used() + 4 * Bit(out.edge) + 5 * Bit(out.connecting)
    + 6 * |inn.incoming| + |inn.avail| + 4 * Bit(inn.edge) + 5 * Bit(!inn.fin)
  }

  /** What is left to do for an endpoint: a byte moves from the queue to the wire, there it both drains and
      arrives at the peer, and then it is read; edges are reported and reports are served. */
  function Work(e: Endpoint): int {
    12 * |Flat(e.c.queue)| + KernelWork(e.out, e.inn) + PhaseWork(e.phase)
  }

  lemma FlushWorks(e: Endpoint, n: nat, e': Endpoint)
    requires e.c.fdOk && FlushStep(e, Ok(n), e')
    ensures Work(e') + 6 * (|e'.out.wire| - |e.out.wire|) < Work(e) && e'.c.fdOk
  {
    FlushTakesPrefix(e.c, e.out, e'.c, e'.out, Ok(n));
    assert Bit(e'.out.edge) + Bit(e'.out.connecting)
           <= Bit(e.out.edge) + Bit(e.out.connecting) + (e'.out.drained - e.out.drained);
  }

  lemma RecvWorks(e: Endpoint, buf: seq<byte>, r: Outcome<bool>, e': Endpoint)
    requires RecvStep(e, buf, r, e')
    ensures Work(e') < Work(e) && e'.out == e.out && e'.c == e.c
  {
    var k, k' := e.inn, e'.inn;
    assert |k'.Stream()| == |k.Stream()|;
    assert |k'.avail| + |k'.incoming| + |buf| == |k.avail| + |k.incoming|;
    assert Bit(k'.edge) <= Bit(k.edge) + (|k.incoming| - |k'.incoming|) + (Bit(!k.fin) - Bit(!k'.fin));
    if r.Ok? && r.value {
      assert |buf| >= 1;
    }
  }

  lemma ReportWorks(e: Endpoint, writable: bool, readable: bool, e': Endpoint)
    requires (e.out.edge || e.inn.edge) && ReportStep(e, writable, readable, e')
    ensures Work(e') < Work(e) && e'.out.wire == e.out.wire && e'.c == e.c
  {
    assert PhaseWork(e'.phase) <= 3 && PhaseWork(e.phase) == 0;
  }

  lemma KernelWorks(e: Endpoint, peerClosed: bool, e': Endpoint)
    requires KernelWorkStep(e, peerClosed, e')
    ensures Work(e') < Work(e) && e'.out.wire == e.out.wire && e'.c == e.c
  {
  }

  /** Every such step leaves less to do, counting what it hands to the peer. */
  lemma WorkDecreases(e: Endpoint, peerClosed: bool, e': Endpoint)
    requires e.c.fdOk && WorkStep(e, peerClosed, e')
    ensures Work(e') + 6 * (|e'.out.wire| - |e.out.wire|) < Work(e)
    ensures e'.c.fdOk
  {
    hide FlushStep, RecvStep, ReportStep, KernelWorkStep, KernelWork;
    if n: nat :| FlushStep(e, Ok(n), e') {
      FlushWorks(e, n, e');
    } else if buf, r :| RecvStep(e, buf, r, e') {
      RecvWorks(e, buf, r, e');
    } else if KernelWorkStep(e, peerClosed, e') {
      KernelWorks(e, peerClosed, e');
    } else if w, r :| (e.out.edge || e.inn.edge) && ReportStep(e, w, r, e') {
      ReportWorks(e, w, r, e');
    }
  }

  ghost predicate PairWork(p: Pair, p': Pair) {
    || (Acts(p.a, p.b, p'.a, p'.b) && WorkStep(p.a, p.b.closed, p'.a))
    || (Acts(p.b, p.a, p'.b, p'.a) && WorkStep(p.b, p.a.closed, p'.b))
  }

  ghost predicate IsWorkRun(run: seq<Pair>) {
    && |run| > 0
    && forall i, j {:trigger PairWork(run[i], run[j])} | 0 <= i < j < |run| && j == i + 1 :: PairWork(run[i], run[j])
  }

  function TotalWork(p: Pair): int {
    Work(p.a) + Work(p.b)
  }

  lemma ActingWorks(x: Endpoint, y: Endpoint, x': Endpoint, y': Endpoint)
    requires Acts(x, y, x', y') && WorkStep(x, y.closed, x') && x.c.fdOk
    ensures Work(x') + Work(y') < Work(x) + Work(y)
    ensures x'.c.fdOk && y'.c == y.c
  {
    WorkDecreases(x, y.closed, x');
    assert |y'.inn.incoming| == |y.inn.incoming| + |x'.out.wire| - |x.out.wire|;
  }

  lemma TotalWorkIsNatural(p: Pair)
    requires p.a.out.Valid() && p.b.out.Valid()
    ensures 0 <= TotalWork(p)
  {
  }

  /** A run of nothing but such steps is no longer than the work there was. */
  lemma {:induction false} WorkEnds(run: seq<Pair>)
    requires IsWorkRun(run) && PairInv(run[0])
    ensures PairInv(run[|run| - 1])
    ensures 0 <= TotalWork(run[|run| - 1]) <= TotalWork(run[0]) - (|run| - 1)
  {
    if |run| > 1 {
      var shorter, p, p' := run[..|run| - 1], run[|run| - 2], run[|run| - 1];
      forall i, j | 0 <= i < j < |shorter| && j == i + 1
        ensures PairWork(shorter[i], shorter[j])
      {
        assert PairWork(run[i], run[j]);
      }
      WorkEnds(shorter);
      assert PairWork(p, p');
      PairWorkWorks(p, p');
    }
    TotalWorkIsNatural(run[|run| - 1]);
  }

  lemma PairWorkWorks(p: Pair, p': Pair)
    requires PairInv(p) && PairWork(p, p')
    ensures PairInv(p') && TotalWork(p') < TotalWork(p)
  {
    PairStepKeepsInv(p, p');
    if Acts(p.a, p.b, p'.a, p'.b) && WorkStep(p.a, p.b.closed, p'.a) {
      ActingWorks(p.a, p.b, p'.a, p'.b);
    } else {
      ActingWorks(p.b, p.a, p'.b, p'.a);
    }
  }

  // ---------------------------------------------------------------------------------------------------
  // Nothing gets stuck
  // ---------------------------------------------------------------------------------------------------

  /** A kernel that accepts all it has room for. */
  lemma FlushIsPossible(e: Endpoint) returns (e': Endpoint)
    requires e.out.Valid() && e.phase.Handling? && e.phase.writable && !e.closed
    ensures FlushStep(e, Ok(0), e')
  {
    var bytes, free := Flat(e.c.queue), e.out.Free();
    var n := if |bytes| <= free then |bytes| else free;
    var k := Since(e.out, bytes[..n], e.out.drained, e.out.connecting);
    var out := if n == |bytes| then k else k.(noSpace := true);
    var q := Remainder(e.c.queue, n);
    RemainderFront(e.c.queue, n);
    var c := Sender(e.c.fdOk, q == [], q, false);
    assert FlushPost(e.c, e.out, c, out, Ok(0));
    e' := e.(c := c, out := out, phase := Handling(false, e.phase.readable));
    FlushIsStep(e, c, out, Ok(0), e');
  }

  /** A `recv` that takes what is there and, unless the stream has ended, succeeds. */
  lemma RecvIsPossible(e: Endpoint) returns (e': Endpoint, buf: seq<byte>, r: Outcome<bool>)
    requires e.phase == Handling(false, true) && !e.closed
    ensures RecvStep(e, buf, r, e')
    ensures !e.inn.fin ==> r.Ok? && !e'.inn.fin
  {
    var n := if |e.inn.avail| <= MAX_MESSAGE then |e.inn.avail| else MAX_MESSAGE;
    buf := e.inn.avail[..n];
    var k := Consumed(e.inn, n);
    ReadingKeepsStream(e.inn, n);
    assert Gave(e.inn, k, buf);
    if n == MAX_MESSAGE {
      r := Ok(true);
    } else {
      r := if e.inn.fin then Err else Ok(false);
    }
    e' := if r.Ok? then e.(inn := k, messages := e.messages + [buf], phase := Handling(false, r.value))
          else e.(inn := k, lost := e.lost + buf, phase := Parked, closed := true);
  }

  /** A step after which the endpoint is no worse off: the stream has not ended, the connection is still
      open, and the program and the errors had no part in it. */
  ghost predicate Benign(e: Endpoint, e': Endpoint) {
    && (!e.inn.fin ==> !e'.inn.fin && !e'.closed)
    && e'.errors == e.errors && e'.sent == e.sent
  }

  /** On an endpoint that is open and not still some such step is possible, and a benign one at that. */
  lemma SomethingCanHappen(e: Endpoint) returns (e': Endpoint)
    requires Inv(e) && !e.closed && !Still(e)
    ensures WorkStep(e, false, e') && Benign(e, e')
  {
    if e.phase.Handling? && e.phase.writable {
      e' := FlushIsPossible(e);
    } else if e.phase.Handling? && e.phase.readable {
      var buf, r;
      e', buf, r := RecvIsPossible(e);
    } else if e.phase.Handling? {
      e' := e.(phase := Parked);
    } else if e.out.edge || e.inn.edge {
      e' := e.(out := e.out.(edge := false), inn := e.inn.(edge := false), phase := Handling(true, true));
      assert ReportStep(e, true, true, e');
    } else if e.out.connecting {
      e' := e.(out := Established(e.out));
    } else if e.out.Used() != 0 {
      e' := e.(out := Drained(e.out, 1));
    } else {
      e' := e.(inn := Arrived(e.inn, 1));
    }
  }

  lemma NothingCanHappen(e: Endpoint, e': Endpoint)
    requires Still(e)
    ensures !WorkStep(e, false, e')
  {
  }

  ghost predicate Stuck(p: Pair) {
    forall p' :: !PairWork(p, p')
  }

  lemma SomethingCanHappenToPair(p: Pair) returns (p': Pair)
    requires PairInv(p) && !p.a.closed && !p.b.closed && !(Still(p.a) && Still(p.b))
    ensures PairWork(p, p') && Benign(p.a, p'.a) && Benign(p.b, p'.b)
  {
    if !Still(p.a) {
      var a' := SomethingCanHappen(p.a);
      WorkIsStep(p.a, false, a');
      StepKeepsStreams(p.a, a');
      p' := Pair(a', Carry(p.b, a'.out.wire[|p.a.out.wire|..]));
      assert Acts(p.a, p.b, p'.a, p'.b);
    } else {
      var b' := SomethingCanHappen(p.b);
      WorkIsStep(p.b, false, b');
      StepKeepsStreams(p.b, b');
      p' := Pair(Carry(p.a, b'.out.wire[|p.b.out.wire|..]), b');
      assert Acts(p.b, p.a, p'.b, p'.a);
    }
  }

  /** No deadlock and no needless work: with both ends open nothing can happen exactly when both are still. */
  lemma StuckMeansStill(p: Pair)
    requires PairInv(p) && !p.a.closed && !p.b.closed
    ensures Stuck(p) <==> Still(p.a) && Still(p.b)
  {
    if Still(p.a) && Still(p.b) {
      forall p'
        ensures !PairWork(p, p')
      {
        NothingCanHappen(p.a, p'.a);
        NothingCanHappen(p.b, p'.b);
      }
    } else {
      var p' := SomethingCanHappenToPair(p);
    }
  }

  /** Eventual delivery. After any run, let the program send no more: whatever the kernel and the event loop
      then do is over after at most `TotalWork` steps, and if they have done all they could, both ends are
      open and neither flush nor `send` of `a` met a hard error, then the message callback of `b` has been
      given exactly the bytes that were given to `send` on `a`. */
  lemma EverythingArrives(history: seq<Pair>, run: seq<Pair>)
    requires IsPairRun(history) && PairInit(history[0])
    requires IsWorkRun(run) && run[0] == history[|history| - 1]
    ensures |run| <= TotalWork(run[0]) + 1
    ensures var p := run[|run| - 1];
            Stuck(p) && !p.a.closed && !p.b.closed && p.a.errors == 0 ==>
              Flat(p.b.messages) == Flat(p.a.sent)
  {
    hide PairInv, Stuck, Still, PairWork;
    PairRunKeepsInv(history);
    WorkEnds(run);
    var p := run[|run| - 1];
    if Stuck(p) && !p.a.closed && !p.b.closed && p.a.errors == 0 {
      StuckMeansStill(p);
      StillPairDelivered(p);
    }
  }

  lemma Prepend(p: Pair, run: seq<Pair>)
    requires IsWorkRun(run) && PairWork(p, run[0])
    ensures IsWorkRun([p] + run)
  {
    hide PairWork;
    var longer := [p] + run;
    forall i, j | 0 <= i < j < |longer| && j == i + 1
      ensures PairWork(longer[i], longer[j])
    {
      if i > 0 {
        assert PairWork(run[i - 1], run[j - 1]);
      }
    }
  }

  /** From wherever two open ends are, the exchange can run its course with both ends staying open. */
  lemma {:induction false} CanFinish(p: Pair) returns (run: seq<Pair>)
    requires PairInv(p) && !p.a.closed && !p.b.closed && !p.a.inn.fin && !p.b.inn.fin
    ensures IsWorkRun(run) && run[0] == p
    ensures var q := run[|run| - 1];
            && Stuck(q) && !q.a.closed && !q.b.closed
            && q.a.errors == p.a.errors && q.a.sent == p.a.sent
    decreases TotalWork(p)
  {
    hide PairInv, Stuck, Still, PairWork, TotalWork;
    StuckMeansStill(p);
    if Still(p.a) && Still(p.b) {
      run := [p];
    } else {
      var next := SomethingCanHappenToPair(p);
      PairWorkWorks(p, next);
      NaturalWork(p);
      NaturalWork(next);
      var rest := CanFinish(next);
      Prepend(p, rest);
      run := [p] + rest;
      assert run[|run| - 1] == rest[|rest| - 1];
    }
  }

  lemma NaturalWork(p: Pair)
    requires PairInv(p)
    ensures 0 <= TotalWork(p)
  {
    TotalWorkIsNatural(p);
  }

  /** Wherever a run without hard error and close has led, everything sent so far can still arrive. */
  lemma EverythingCanArrive(history: seq<Pair>)
    requires IsPairRun(history) && PairInit(history[0])
    requires var p := history[|history| - 1];
             !p.a.closed && !p.b.closed && !p.a.inn.fin && !p.b.inn.fin && p.a.errors == 0
    ensures var p := history[|history| - 1];
            exists run: seq<Pair> :: IsWorkRun(run) && run[0] == p
                          && var q := run[|run| - 1];
                             && Stuck(q) && !q.a.closed && !q.b.closed
                             && q.a.sent == p.a.sent && Flat(q.b.messages) == Flat(p.a.sent)
  {
    hide PairInv, Stuck, PairWork;
    PairRunKeepsInv(history);
    var run := CanFinish(history[|history| - 1]);
    EverythingArrives(history, run);
  }

  /** One of them: two new ends with send buffers of one byte, and a message of three bytes. */
  lemma ThreeBytesArrive()
    ensures exists history: seq<Pair>, run: seq<Pair> ::
      && IsPairRun(history) && PairInit(history[0]) && IsWorkRun(run) && run[0] == history[|history| - 1]
      && run[0].a.c.queue == [[2, 3]]
      && var q := run[|run| - 1];
         Stuck(q) && !q.a.closed && !q.b.closed && Flat(q.b.messages) == [1, 2, 3]
  {
    hide Stuck, PairWork;
    var made := Pair(Created(), Created());
    var history := [made, Pair(Queued(), Carry(Created(), [1]))];
    QueuesRest();
    assert Queued().out.wire[|Created().out.wire|..] == [1];
    assert Acts(Created(), Created(), Queued(), Carry(Created(), [1]));
    assert PairStep(history[0], history[1]);
    assert IsPairRun(history) && PairInit(history[0]);
    EverythingCanArrive(history);
    FlatOne([1, 2, 3]);
  }
}
