/** Two endpoints joined by a network. */
module EndToEnd {
  import opened Bytes
  import opened Kernel
  import opened Channel

  datatype Pair = Pair(a: Endpoint, b: Endpoint)

  /** The network takes charge of `bytes` for `e`; they arrive when the kernel of `e` says so. */
  function Carry(e: Endpoint, bytes: seq<byte>): Endpoint {
    e.(inn := e.inn.(incoming := e.inn.incoming + bytes))
  }

  /** `x` takes a step, and whatever its kernel accepted is on its way to `y`. */
  ghost predicate Acts(x: Endpoint, y: Endpoint, x': Endpoint, y': Endpoint) {
    && Step(x, x')
    && x.out.wire <= x'.out.wire
    && y' == Carry(y, x'.out.wire[|x.out.wire|..])
  }

  ghost predicate PairStep(p: Pair, p': Pair) {
    Acts(p.a, p.b, p'.a, p'.b) || Acts(p.b, p.a, p'.b, p'.a)
  }

  ghost predicate PairInit(p: Pair) {
    && Init(p.a) && p.a.inn.incoming == []
    && Init(p.b) && p.b.inn.incoming == []
  }

  ghost predicate IsPairRun(run: seq<Pair>) {
    && |run| > 0
    && forall i, j {:trigger PairStep(run[i], run[j])} | 0 <= i < j < |run| && j == i + 1 :: PairStep(run[i], run[j])
  }

  lemma DropLastPair(run: seq<Pair>)
    requires IsPairRun(run) && |run| > 1
    ensures IsPairRun(run[..|run| - 1]) && PairStep(run[|run| - 2], run[|run| - 1])
  {
    var shorter := run[..|run| - 1];
    assert PairStep(run[|run| - 2], run[|run| - 1]);
    forall i, j | 0 <= i < j < |shorter| && j == i + 1
      ensures PairStep(shorter[i], shorter[j])
    {
      assert PairStep(run[i], run[j]);
    }
  }

  /** The stream out of one endpoint is the stream into the other. */
  ghost predicate PairInv(p: Pair) {
    && Inv(p.a) && Inv(p.b)
    && p.a.inn.Stream() == p.b.out.wire
    && p.b.inn.Stream() == p.a.out.wire
  }

  lemma StepKeepsStreams(e: Endpoint, e': Endpoint)
    requires Step(e, e')
    ensures e'.inn.Stream() == e.inn.Stream()
    ensures e.out.wire <= e'.out.wire
  {
    if KernelStep(e, e') {
      if n: nat :| 1 <= n <= |e.inn.incoming| && e' == e.(inn := Arrived(e.inn, n)) {
        ArrivedKeepsStream(e.inn, n);
      }
    }
  }

  lemma ActsKeepsInv(x: Endpoint, y: Endpoint, x': Endpoint, y': Endpoint)
    requires Acts(x, y, x', y') && PairInv(Pair(x, y))
    ensures PairInv(Pair(x', y'))
  {
    StepKeepsInv(x, x');
    StepKeepsStreams(x, x');
    var gained := x'.out.wire[|x.out.wire|..];
    assert y'.inn.Stream() == y.inn.Stream() + gained;
    assert x'.out.wire == x.out.wire + gained;
  }

  lemma PairStepKeepsInv(p: Pair, p': Pair)
    requires PairInv(p) && PairStep(p, p')
    ensures PairInv(p')
  {
    if Acts(p.a, p.b, p'.a, p'.b) {
      ActsKeepsInv(p.a, p.b, p'.a, p'.b);
    } else {
      ActsKeepsInv(p.b, p.a, p'.b, p'.a);
    }
  }

  lemma {:induction false} PairRunKeepsInv(run: seq<Pair>)
    requires IsPairRun(run) && PairInit(run[0])
    ensures PairInv(run[|run| - 1])
  {
    if |run| > 1 {
      DropLastPair(run);
      PairRunKeepsInv(run[..|run| - 1]);
      PairStepKeepsInv(run[|run| - 2], run[|run| - 1]);
    }
  }

  /** End to end, in every interleaving: what the message callback of `b` was given is a prefix of the
      stream `a` took charge of, and of the concatenated messages up to and including a step that meets
      the first hard send error of `a`. */
  lemma DeliversPrefix(run: seq<Pair>)
    requires IsPairRun(run) && PairInit(run[0])
    ensures var p := run[|run| - 1];
            && Flat(p.b.messages) <= p.a.out.wire
            && (!p.a.failed ==> Flat(p.b.messages) <= p.a.accepted)
    ensures |run| == 1 || run[|run| - 2].a.errors == 0 ==>
              Flat(run[|run| - 1].b.messages) <= Flat(run[|run| - 1].a.sent)
  {
    PairRunKeepsInv(run);
    DeliveredIsReceived(run[|run| - 1].a, run[|run| - 1].b);
    if |run| > 1 && run[|run| - 2].a.errors == 0 {
      FirstErrorOfPair(run);
    }
  }

  lemma FirstErrorOfPair(run: seq<Pair>)
    requires IsPairRun(run) && PairInit(run[0]) && |run| > 1 && run[|run| - 2].a.errors == 0
    ensures run[|run| - 1].a.out.wire <= Flat(run[|run| - 1].a.sent)
  {
    DropLastPair(run);
    PairRunKeepsInv(run[..|run| - 1]);
    PairStepKeepsPrefix(run[|run| - 2], run[|run| - 1]);
  }

  lemma DeliveredIsReceived(x: Endpoint, y: Endpoint)
    requires PairInv(Pair(x, y))
    ensures Flat(y.messages) <= x.out.wire
    ensures !x.failed ==> Flat(y.messages) <= x.accepted
  {
    assert Flat(y.messages) <= y.inn.read <= y.inn.Stream();
  }

  lemma PairStepKeepsPrefix(p: Pair, p': Pair)
    requires PairInv(p) && p.a.errors == 0 && PairStep(p, p')
    ensures p'.a.out.wire <= Flat(p'.a.sent)
  {
    if Acts(p.a, p.b, p'.a, p'.b) {
      StepKeepsPrefix(p.a, p'.a);
    } else {
      assert p'.a.out == p.a.out && p'.a.sent == p.a.sent;
    }
  }

  /** Neither the kernel nor the event loop has anything left to do for `e`: no event is being served, no
      edge is pending, the connection stands, the send buffer has drained and nothing is on its way. */
  ghost predicate Still(e: Endpoint) {
    && e.phase.Parked? && !e.out.edge && !e.inn.edge
    && !e.out.connecting && e.out.Used() == 0 && e.inn.incoming == []
  }

  /** Nothing stalls: when both ends are still and open and `a` met no hard error, every byte of every
      message given to `send` on `a` has reached the message callback of `b`, in order, and no more. */
  lemma StillMeansDelivered(run: seq<Pair>)
    requires IsPairRun(run) && PairInit(run[0])
    requires var p := run[|run| - 1];
             Still(p.a) && Still(p.b) && !p.a.closed && !p.b.closed && p.a.errors == 0
    ensures var p := run[|run| - 1];
            Flat(p.b.messages) == Flat(p.a.sent) && p.a.c.queue == [] && p.a.c.ready
  {
    PairRunKeepsInv(run);
    StillPairDelivered(run[|run| - 1]);
  }

  lemma StillPairDelivered(p: Pair)
    requires PairInv(p) && Still(p.a) && Still(p.b) && !p.a.closed && !p.b.closed && p.a.errors == 0
    ensures Flat(p.b.messages) == Flat(p.a.sent) && p.a.c.queue == [] && p.a.c.ready
  {
    assert p.a.c.queue == [];
    assert !p.b.inn.Readable();
    assert p.b.inn.Stream() == p.b.inn.read;
  }

  function Swap(p: Pair): Pair {
    Pair(p.b, p.a)
  }

  /** The pair seen from the other end is a pair: both theorems hold for the stream from `b` to `a` too. */
  lemma Mirror(run: seq<Pair>, mirrored: seq<Pair>)
    requires IsPairRun(run) && PairInit(run[0])
    requires |mirrored| == |run| && forall i | 0 <= i < |run| :: mirrored[i] == Swap(run[i])
    ensures IsPairRun(mirrored) && PairInit(mirrored[0])
  {
    forall i, j | 0 <= i < j < |run| && j == i + 1
      ensures PairStep(mirrored[i], mirrored[j])
    {
      assert PairStep(run[i], run[j]);
    }
  }
}
