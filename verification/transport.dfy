/** What one call of a connection's `send`, `flush_send_queue` and `recv` may do, as relations between
    the state before and after it, and the laws that follow for every call. */
module Transport {
  import opened Bytes
  import opened Kernel

  /** `total_sent` is a C++ `int`, so messages are shorter than this. */
  const INT_LIMIT: int := 0x8000_0000

  /** The most bytes one message callback is asked to take, give or take a chunk. */
  const MAX_MESSAGE: int := 104857600

  /** The chunk in which `recv` asks the kernel for bytes. */
  const CHUNK_SIZE: int := 4096

  /** m_fd_result is Ok, m_send_ready, m_send_queue and m_flushing. */
  datatype Sender = Sender(fdOk: bool, ready: bool, queue: seq<seq<byte>>, flushing: bool)

  datatype Outcome<T> = Ok(value: T) | Err

  /** One `send` of `data`. The kernel takes a first part of it; a refused rest is queued, unless a flush
      is said to be in progress. */
  ghost predicate SendPost(c: Sender, k: OutBuf, data: seq<byte>, c': Sender, k': OutBuf, r: Outcome<nat>) {
    if !c.fdOk then
      r == Err && c' == c && k' == k
    else if !c.ready then
      r == Ok(0) && c' == c.(queue := c.queue + [data]) && k' == k
    else
      var n := |k'.wire| - |k.wire|;
      && 0 <= n <= |data|
      && match r
         case Ok(total) =>
           && total == n
           && if n == |data| then Took(k, k', data) && c' == c
              else
                && Refused(k, k', data[..n])
                && c' == c.(ready := false, queue := if c.flushing then c.queue else c.queue + [data[n..]])
         case Err => n < |data| && Broke(k, k', data[..n]) && c' == c
  }

  /** One `flush_send_queue`. On success the queue is what remains after the bytes the kernel took; a hard
      error leaves through the middle, with the failing message still whole at the front. */
  ghost predicate FlushPost(c: Sender, k: OutBuf, c': Sender, k': OutBuf, r: Outcome<nat>) {
    var n := |k'.wire| - |k.wire|;
    && 0 <= n <= |Flat(c.queue)|
    && match r
       case Ok(_) =>
         && r == Ok(0)
         && c' == Sender(c.fdOk, Remainder(c.queue, n) == [], Remainder(c.queue, n), false)
         && if c'.queue == [] then Took(k, k', Flat(c.queue)[..n]) else Refused(k, k', Flat(c.queue)[..n])
       case Err =>
         && (if c.fdOk then Broke(k, k', Flat(c.queue)[..n]) else k' == k)
         && c'.fdOk == c.fdOk && c'.ready && c'.flushing
         && var i := |c.queue| - |c'.queue|;
            0 <= i < |c.queue| && FailedAt(c, n, i) && c'.queue == c.queue[i..]
  }

  /** A flush that stopped at message `i` after the kernel took `n` bytes in all. */
  ghost predicate FailedAt(c: Sender, n: nat, i: nat)
    requires i < |c.queue|
  {
    var whole := |Flat(c.queue[..i])|;
    if c.fdOk then whole <= n < whole + |c.queue[i]| else n == 0 && i == 0
  }

  /** One `recv` that asked for about `max` bytes and gathered `buf`. `Ok(again)` says whether to call again. */
  ghost predicate RecvPost(k: InBuf, max: nat, k': InBuf, buf: seq<byte>, r: Outcome<bool>) {
    match r
    case Ok(again) =>
      && Gave(k, k', buf)
      && if again then max <= |buf| < max + CHUNK_SIZE else |buf| < max && !k'.Readable()
    case Err =>
      |buf| < max && (GaveUp(k, k', buf) || (Gave(k, k', buf) && k'.avail == [] && k'.fin))
  }

  /** Between two operations: no flush in progress, ready exactly when nothing is queued, and something to
      send at the front of a queue that is not empty. */
  ghost predicate Settled(c: Sender) {
    && c.fdOk
    && !c.flushing
    && (c.ready <==> c.queue == [])
    && (c.queue != [] ==> c.queue[0] != [])
  }

  /** The part of a message that a `send` took charge of: all of it, or on a hard error what the kernel
      had accepted by then. */
  ghost function Charged(data: seq<byte>, k: OutBuf, k': OutBuf, r: Outcome<nat>): seq<byte>
    requires k.wire <= k'.wire
  {
    var n := |k'.wire| - |k.wire|;
    if r.Ok? || |data| <= n then data else data[..n]
  }

  /** Bytes on the wire followed by bytes queued. */
  ghost function Owed(c: Sender, k: OutBuf): seq<byte> {
    k.wire + Flat(c.queue)
  }

  lemma TookNothing(k: OutBuf)
    requires k.Valid()
    ensures Took(k, k, [])
  {
    assert k.wire + [] == k.wire;
  }

  lemma TookTransitive(k: OutBuf, k1: OutBuf, k2: OutBuf, a: seq<byte>, b: seq<byte>)
    requires Took(k, k1, a) && (Took(k1, k2, b) || Refused(k1, k2, b) || Broke(k1, k2, b))
    ensures Took(k1, k2, b) ==> Took(k, k2, a + b)
    ensures Refused(k1, k2, b) ==> Refused(k, k2, a + b)
    ensures Broke(k1, k2, b) ==> Broke(k, k2, a + b)
  {
    assert k.wire + a + b == k.wire + (a + b);
  }

  lemma GaveTransitive(k: InBuf, k1: InBuf, k2: InBuf, a: seq<byte>, b: seq<byte>)
    requires Gave(k, k1, a) && (Gave(k1, k2, b) || GaveUp(k1, k2, b))
    ensures Gave(k1, k2, b) ==> Gave(k, k2, a + b)
    ensures GaveUp(k1, k2, b) ==> GaveUp(k, k2, a + b)
  {
    assert k.read + a + b == k.read + (a + b);
  }

  /** The kernel took the first `i` messages and `n` bytes of the next. */
  lemma TookPart(k: OutBuf, k1: OutBuf, k2: OutBuf, q: seq<seq<byte>>, i: nat, n: nat)
    requires i < |q| && n <= |q[i]|
    requires Took(k, k1, Flat(q[..i]))
    requires Took(k1, k2, q[i][..n]) || Refused(k1, k2, q[i][..n]) || Broke(k1, k2, q[i][..n])
    ensures |Flat(q[..i])| + n <= |Flat(q)|
    ensures Took(k1, k2, q[i][..n]) ==> Took(k, k2, Flat(q)[..|Flat(q[..i])| + n])
    ensures Refused(k1, k2, q[i][..n]) ==> Refused(k, k2, Flat(q)[..|Flat(q[..i])| + n])
    ensures Broke(k1, k2, q[i][..n]) ==> Broke(k, k2, Flat(q)[..|Flat(q[..i])| + n])
    ensures n == |q[i]| && Took(k1, k2, q[i]) ==> Took(k, k2, Flat(q[..i + 1]))
  {
    FlatSplit(q, i);
    assert q[i][..|q[i]|] == q[i];
    assert Flat(q[..i]) + q[i][..n] == Flat(q)[..|Flat(q[..i])| + n];
    TookTransitive(k, k1, k2, Flat(q[..i]), q[i][..n]);
  }

  /** The three ways a flush ends: out of messages, refused within message `i`, or broken there. */
  lemma FlushEmptied(c: Sender, k: OutBuf, k': OutBuf)
    requires Took(k, k', Flat(c.queue))
    ensures FlushPost(c, k, Sender(c.fdOk, true, [], false), k', Ok(0))
  {
    RemainderFront(c.queue, |Flat(c.queue)|);
    assert Flat(c.queue)[..|Flat(c.queue)|] == Flat(c.queue);
  }

  lemma FlushRefused(c: Sender, k: OutBuf, k': OutBuf, i: nat, n: nat)
    requires i < |c.queue| && n < |c.queue[i]|
    requires |Flat(c.queue[..i])| + n <= |Flat(c.queue)|
    requires Refused(k, k', Flat(c.queue)[..|Flat(c.queue[..i])| + n])
    ensures FlushPost(c, k, Sender(c.fdOk, false, [c.queue[i][n..]] + c.queue[i + 1..], false), k', Ok(0))
  {
    RemainderAt(c.queue, i, n);
  }

  lemma FlushBroken(c: Sender, k: OutBuf, k': OutBuf, i: nat, n: nat)
    requires i < |c.queue| && n <= |c.queue[i]|
    requires |Flat(c.queue[..i])| + n <= |Flat(c.queue)|
    requires if c.fdOk then Broke(k, k', Flat(c.queue)[..|Flat(c.queue[..i])| + n]) else k' == k
    requires FailedAt(c, |Flat(c.queue[..i])| + n, i)
    ensures FlushPost(c, k, Sender(c.fdOk, true, c.queue[i..], true), k', Err)
  {
  }

  /** What holds between two operations in any run, even after hard errors: the ready flag tells whether
      something is queued, unless a flush that failed left the flushing flag behind. */
  ghost predicate Orderly(c: Sender) {
    && c.fdOk
    && (if c.flushing then c.queue != [] else c.ready <==> c.queue == [])
    && (c.queue != [] ==> c.queue[0] != [])
  }

  /** From a settled state `send` settles again, and the bytes it took charge of join the end of the
      stream; it keeps the whole message exactly when it returns Ok. */
  lemma SendKeepsOrder(c: Sender, k: OutBuf, data: seq<byte>, c': Sender, k': OutBuf, r: Outcome<nat>)
    requires Settled(c) && SendPost(c, k, data, c', k', r)
    ensures Settled(c')
    ensures Owed(c', k') == Owed(c, k) + Charged(data, k, k', r)
    ensures Owed(c', k') == Owed(c, k) + data <==> r.Ok?
    ensures c'.queue != [] && c.ready ==> k'.noSpace
  {
    if !c.ready {
      FlatSnoc(c.queue, data);
      assert k.wire + Flat(c.queue) + data == k.wire + (Flat(c.queue) + data);
    } else {
      var n := |k'.wire| - |k.wire|;
      assert Flat(c.queue) == [];
      if n < |data| && r.Ok? {
        FlatSnoc(c.queue, data[n..]);
        assert k.wire + data[..n] + data[n..] == k.wire + data;
      }
    }
  }

  /** `send` on a live handle reports an error exactly when the kernel did. */
  lemma SendErrIff(c: Sender, k: OutBuf, data: seq<byte>, c': Sender, k': OutBuf, r: Outcome<nat>)
    requires c.fdOk && SendPost(c, k, data, c', k', r)
    ensures r.Err? <==> k'.broken != k.broken
    ensures k'.broken == k.broken + if r.Err? then 1 else 0
    ensures Settled(c) && k'.broken == k.broken ==> Settled(c') && Owed(c', k') == Owed(c, k) + data
  {
    if Settled(c) {
      SendKeepsOrder(c, k, data, c', k', r);
    }
  }

  /** And so does a flush. */
  lemma FlushErrIff(c: Sender, k: OutBuf, c': Sender, k': OutBuf, r: Outcome<nat>)
    requires c.fdOk && FlushPost(c, k, c', k', r)
    ensures r.Err? <==> k'.broken != k.broken
    ensures k'.broken == k.broken + if r.Err? then 1 else 0
    ensures k'.broken == k.broken ==> Settled(c') && Owed(c', k') == Owed(c, k)
  {
    if r.Ok? {
      FlushTakesPrefix(c, k, c', k', r);
    }
  }

  /** `recv` reports an error exactly when the kernel did, or when the stream ended before `max` bytes were
      there. */
  lemma RecvErrIff(k: InBuf, max: nat, k': InBuf, buf: seq<byte>, r: Outcome<bool>)
    requires RecvPost(k, max, k', buf, r)
    ensures r.Err? <==> k'.broken != k.broken || (|buf| < max && k'.Readable())
    ensures r.Err? && k'.broken == k.broken ==> k'.fin && k'.avail == []
  {
  }

  /** A flush that succeeds settles from any state whatever: the wire gains exactly the first `n` bytes of
      the queue, the queue keeps exactly the others, and it only stops early because the kernel is full. */
  lemma FlushTakesPrefix(c: Sender, k: OutBuf, c': Sender, k': OutBuf, r: Outcome<nat>)
    requires c.fdOk && FlushPost(c, k, c', k', r) && r.Ok?
    ensures Settled(c')
    ensures Owed(c', k') == Owed(c, k)
    ensures Flat(c'.queue) == Flat(c.queue)[|k'.wire| - |k.wire|..]
    ensures c'.queue != [] ==> k'.noSpace
  {
    var n := |k'.wire| - |k.wire|;
    RemainderFlat(c.queue, n);
    RemainderFront(c.queue, n);
    assert k.wire + Flat(c.queue) == k.wire + Flat(c.queue)[..n] + Flat(c.queue)[n..];
  }

  lemma PartIsPrefix(w: seq<byte>, bytes: seq<byte>, n: nat)
    requires n <= |bytes|
    ensures w <= w + bytes[..n] <= w + bytes
  {
    assert w + bytes == w + bytes[..n] + bytes[n..];
  }

  /** Whatever a flush does, the wire stays a prefix of what was owed. */
  lemma FlushKeepsPrefix(c: Sender, k: OutBuf, c': Sender, k': OutBuf, r: Outcome<nat>)
    requires FlushPost(c, k, c', k', r)
    ensures k.wire <= k'.wire <= Owed(c, k)
  {
    hide Remainder, Flat, FailedAt, Moves;
    PartIsPrefix(k.wire, Flat(c.queue), |k'.wire| - |k.wire|);
  }

  /** A flush that meets a hard error at message `i`, of which the kernel had taken `t` bytes: these bytes
      are on the wire and still in the queue, so the stream is conserved exactly when there are none. */
  lemma FailedFlush(c: Sender, k: OutBuf, c': Sender, k': OutBuf)
    requires c.fdOk && FlushPost(c, k, c', k', Err)
    ensures var i := |c.queue| - |c'.queue|;
            && 0 <= i < |c.queue|
            && var t := |k'.wire| - |k.wire| - |Flat(c.queue[..i])|;
               && 0 <= t < |c.queue[i]|
               && k'.wire == k.wire + Flat(c.queue[..i]) + c.queue[i][..t]
               && Owed(c, k) == k.wire + Flat(c.queue[..i]) + Flat(c.queue[i..])
               && Owed(c', k') == k.wire + Flat(c.queue[..i]) + c.queue[i][..t] + Flat(c.queue[i..])
               && (Owed(c', k') == Owed(c, k) <==> t == 0)
  {
    var n, i := |k'.wire| - |k.wire|, |c.queue| - |c'.queue|;
    FlatSplit(c.queue, i);
    FlatDrop(c.queue, i);
    var t := n - |Flat(c.queue[..i])|;
    assert Flat(c.queue)[..n] == Flat(c.queue[..i]) + c.queue[i][..t];
    assert k.wire + Flat(c.queue) == k.wire + Flat(c.queue[..i]) + Flat(c.queue[i..]);
    if t == 0 {
      assert Flat(c.queue[..i]) + c.queue[i][..t] == Flat(c.queue[..i]);
    } else {
      assert |Owed(c', k')| == |Owed(c, k)| + t;
    }
  }

  /** A sender and its send buffer. */
  datatype Link = Link(c: Sender, k: OutBuf) {
    ghost function Pending(): nat { |Flat(c.queue)| }
  }

  /** The network drains `d` bytes and the resulting edge makes the connection flush, without hard error. */
  ghost predicate Round(l: Link, d: nat, l': Link) {
    && 1 <= d <= l.k.Used()
    && FlushPost(l.c, Drained(l.k, d), l'.c, l'.k, Ok(0))
  }

  ghost predicate Rounds(run: seq<Link>, ds: seq<nat>) {
    && |run| == |ds| + 1
    && forall i | 0 <= i < |ds| :: Round(run[i], ds[i], run[i + 1])
  }

  ghost function Sum(ds: seq<nat>): nat {
    if ds == [] then 0 else Sum(ds[..|ds| - 1]) + ds[|ds| - 1]
  }

  /** A flush moves all it has or fills the buffer: it never stops while the kernel would take more. */
  lemma FlushFillsBuffer(c: Sender, k: OutBuf, c': Sender, k': OutBuf, r: Outcome<nat>)
    requires c.fdOk && FlushPost(c, k, c', k', r) && r.Ok?
    ensures |k'.wire| - |k.wire| == |Flat(c.queue)| || (k'.Free() == 0 && k.Free() <= |k'.wire| - |k.wire|)
  {
    FlushTakesPrefix(c, k, c', k', r);
    RemainderFront(c.queue, |k'.wire| - |k.wire|);
  }

  /** After rounds that drained `ds`, at most the initial backlog less their sum is pending. Every round
      drains a byte or more, so after as many rounds as there were bytes pending nothing is queued at all,
      not even empty messages. */
  lemma {:induction false} BoundedProgress(run: seq<Link>, ds: seq<nat>)
    requires Rounds(run, ds) && run[0].k.Valid() && run[0].c.fdOk
    ensures run[|ds|].k.Valid() && run[|ds|].c.fdOk
    ensures run[|ds|].Pending() == 0 || run[|ds|].Pending() + Sum(ds) <= run[0].Pending()
    ensures |ds| <= Sum(ds)
    ensures Settled(run[0].c) && run[0].Pending() <= |ds| ==> run[|ds|].c.queue == [] && run[|ds|].c.ready
  {
    if ds != [] {
      var m := |ds| - 1;
      BoundedProgress(run[..m + 1], ds[..m]);
      var l, l' := run[m], run[m + 1];
      assert Round(l, ds[m], l');
      FlushFillsBuffer(l.c, Drained(l.k, ds[m]), l'.c, l'.k, Ok(0));
      FlushTakesPrefix(l.c, Drained(l.k, ds[m]), l'.c, l'.k, Ok(0));
      if l'.c.queue != [] {
        assert l'.Pending() != 0;
      }
    }
  }
}
