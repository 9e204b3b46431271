/** The two directions of a stream socket as the kernel keeps them, with edge-triggered readiness.
    The kernel is not part of the program: it may do anything these definitions allow. */
module Kernel {
  import opened Bytes

  /** Send direction: `wire` is every byte ever accepted, of which the first `drained` have left the
      send buffer; nothing is accepted while the socket is still `connecting`. `noSpace` says that a writer
      was refused and nothing drained since; `edge` that a writability edge waits to be reported by
      epoll_wait; `broken` counts the calls that were answered with a hard error. */
  datatype OutBuf = OutBuf(cap: nat, wire: seq<byte>, drained: nat, noSpace: bool, edge: bool, connecting: bool,
                           broken: nat) {
    function Used(): int { |wire| - drained }

    /** How many bytes a `send` could still place. */
    function Free(): int { if connecting then 0 else cap - Used() }

    ghost predicate Valid() {
      && 1 <= cap
      && 0 <= Used() <= cap
      && (connecting ==> wire == [])
      && (noSpace ==> Free() == 0)
    }
  }

  /** `n` bytes leave the send buffer; a writer that was refused gets its edge. */
  function Drained(k: OutBuf, n: nat): OutBuf {
    k.(drained := k.drained + n, edge := k.edge || k.noSpace, noSpace := false)
  }

  /** The connection stands, which is a writability edge. */
  function Established(k: OutBuf): OutBuf {
    k.(connecting := false, edge := true, noSpace := false)
  }

  /** What `k` is after `sent` was accepted, `drained` bytes in all have left, and the connection stands
      unless it is still `connecting`, provided nobody was refused meanwhile. */
  function Since(k: OutBuf, sent: seq<byte>, drained: nat, connecting: bool): OutBuf {
    var established := k.connecting && !connecting;
    var moved := established || k.drained < drained;
    OutBuf(k.cap, k.wire + sent, drained, k.noSpace && !moved,
           k.edge || established || (k.noSpace && moved), connecting, k.broken)
  }

  ghost predicate Moves(k: OutBuf, k': OutBuf) {
    k'.Valid() && k.drained <= k'.drained && (k'.connecting ==> k.connecting)
  }

  /** `sent` was accepted between `k` and `k'`, while the network did whatever it liked. */
  ghost predicate Took(k: OutBuf, k': OutBuf, sent: seq<byte>) {
    Moves(k, k') && k' == Since(k, sent, k'.drained, k'.connecting)
  }

  /** The same, and then the writer was refused. */
  ghost predicate Refused(k: OutBuf, k': OutBuf, sent: seq<byte>) {
    Moves(k, k') && k' == Since(k, sent, k'.drained, k'.connecting).(noSpace := true)
  }

  /** The same, and then the writer got a hard error. */
  ghost predicate Broke(k: OutBuf, k': OutBuf, sent: seq<byte>) {
    Moves(k, k') && k' == Since(k, sent, k'.drained, k'.connecting).(broken := k.broken + 1)
  }

  /** Receive direction: `read` is every byte the program has read, `avail` what it could read now,
      `incoming` what the peer has sent and the network still carries. `fin` says that the end of the
      stream has arrived; `edge` that a readability edge waits to be reported; `broken` counts the calls
      that were answered with an error other than the end of the stream. */
  datatype InBuf = InBuf(read: seq<byte>, avail: seq<byte>, incoming: seq<byte>, fin: bool, edge: bool,
                         broken: nat) {
    function Stream(): seq<byte> { read + avail + incoming }
    function Unread(): nat { |avail| + |incoming| }
    predicate Readable() { avail != [] || fin }
  }

  /** The next `n` bytes arrive, raising an edge. */
  function Arrived(k: InBuf, n: nat): InBuf
    requires n <= |k.incoming|
  {
    k.(avail := k.avail + k.incoming[..n], incoming := k.incoming[n..], edge := true)
  }

  /** The program reads `n` of the available bytes. */
  function Consumed(k: InBuf, n: nat): InBuf
    requires n <= |k.avail|
  {
    k.(read := k.read + k.avail[..n], avail := k.avail[n..])
  }

  lemma ArrivedKeepsStream(k: InBuf, n: nat)
    requires n <= |k.incoming|
    ensures Arrived(k, n).Stream() == k.Stream()
  {
    assert k.incoming == k.incoming[..n] + k.incoming[n..];
  }

  lemma ReadingKeepsStream(k: InBuf, n: nat)
    requires n <= |k.avail|
    ensures Consumed(k, n).Stream() == k.Stream()
  {
    assert k.avail == k.avail[..n] + k.avail[n..];
  }

  /** `got` was read between `k` and `k'`, while the network delivered whatever it liked. */
  ghost predicate Gave(k: InBuf, k': InBuf, got: seq<byte>) {
    && k'.read == k.read + got
    && k'.Stream() == k.Stream()
    && |k'.incoming| <= |k.incoming|
    && (k.fin ==> k'.fin)
    && k'.broken == k.broken
    && (k'.edge <==> k.edge || |k'.incoming| < |k.incoming| || k.fin != k'.fin)
  }

  /** The same, and then the reader got an error. */
  ghost predicate GaveUp(k: InBuf, k': InBuf, got: seq<byte>) {
    k'.broken == k.broken + 1 && Gave(k, k'.(broken := k.broken), got)
  }

  datatype SendResult = Sent(n: nat) | SendAgain | SendBroken
  datatype RecvResult = Data(bytes: seq<byte>) | RecvAgain | Eof | RecvBroken

  class Socket {
    var out: OutBuf
    var inn: InBuf

    constructor (cap: nat, connecting: bool)
      requires 1 <= cap
      ensures out == OutBuf(cap, [], 0, false, false, connecting, 0)
      ensures inn == InBuf([], [], [], false, false, 0)
    {
      out := OutBuf(cap, [], 0, false, false, connecting, 0);
      inn := InBuf([], [], [], false, false, 0);
    }

    /** ::send on a non-blocking socket, which may still be connecting. */
    method Send(data: seq<byte>) returns (r: SendResult)
      requires out.Valid() && data != []
      modifies this`out
      ensures match r
              case Sent(n) => 1 <= n <= |data| && Took(old(out), out, data[..n])
              case SendAgain => Refused(old(out), out, [])
              case SendBroken => Broke(old(out), out, [])
    {
      var connects: bool := *;
      if connects && out.connecting {
        out := Established(out);
      }
      var d: nat := *;
      if 1 <= d <= out.Used() {
        out := Drained(out, d);
      }
      assert out.wire == old(out.wire) + [];
      if * {
        out := out.(broken := out.broken + 1);
        return SendBroken;
      }
      var free := out.Free();
      if free == 0 {
        out := out.(noSpace := true);
        return SendAgain;
      }
      var n :| 1 <= n <= |data| && n <= free;
      out := out.(wire := out.wire + data[..n]);
      r := Sent(n);
    }

    /** Bytes, or the end of the stream, arrive at any moment. */
    method Deliver()
      modifies this`inn
      ensures Gave(old(inn), inn, []) && inn.Unread() == old(inn.Unread())
    {
      var n: nat := *;
      if n <= |inn.incoming| {
        if n > 0 {
          ArrivedKeepsStream(inn, n);
          inn := Arrived(inn, n);
        }
      }
      var finArrives: bool := *;
      if finArrives && inn.incoming == [] && !inn.fin {
        inn := inn.(fin := true, edge := true);
      }
    }

    /** ::recv on a non-blocking socket. */
    method Recv(size: nat) returns (r: RecvResult)
      requires 1 <= size
      modifies this`inn
      ensures match r
              case Data(bytes) => 1 <= |bytes| <= size && Gave(old(inn), inn, bytes)
              case RecvAgain => Gave(old(inn), inn, []) && !inn.Readable()
              case Eof => Gave(old(inn), inn, []) && inn.avail == [] && inn.fin
              case RecvBroken => GaveUp(old(inn), inn, [])
      ensures inn.Unread() == old(inn.Unread()) - if r.Data? then |r.bytes| else 0
    {
      Deliver();
      if * {
        inn := inn.(broken := inn.broken + 1);
        return RecvBroken;
      }
      if inn.avail == [] {
        return if inn.fin then Eof else RecvAgain;
      }
      var n :| 1 <= n <= |inn.avail| && n <= size;
      ReadingKeepsStream(inn, n);
      r := Data(inn.avail[..n]);
      inn := Consumed(inn, n);
    }
  }
}
