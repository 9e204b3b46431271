/** The buffered, edge-triggered byte channel as an object with mutable state: `send`, `recv`,
    `flush_send_queue` and `on_data`. */
module Connections {
  import opened Bytes
  import opened Kernel
  import opened Transport
  import opened Channel

  /** The values a C++ `int` holds. */
  type Int = x: int | -INT_LIMIT <= x < INT_LIMIT

  /** The bits of an epoll event that `on_data` looks at. */
  datatype Events = Events(writable: bool, hup: bool, err: bool, readable: bool, rdhup: bool)

  /** What reading until the kernel has no more came to: all that was read went to the message callback, except
      the bytes of a `recv` that failed; and unless one did, the kernel has no more. */
  ghost predicate ReadsAll(k: InBuf, k': InBuf, messages: seq<seq<byte>>, messages': seq<seq<byte>>,
                           lost: seq<byte>, lost': seq<byte>) {
    && messages <= messages' && lost <= lost'
    && k'.read == k.read + Flat(messages'[|messages|..]) + lost'[|lost|..]
    && (k'.broken == k.broken && !k'.fin ==> lost' == lost && !k'.Readable())
  }

  class Connection {
    const sock: Socket
    const fdOk: bool

    var ready: bool
    var queue: seq<seq<byte>>
    var flushing: bool

    /** The calls of the message callback, and how many there were of the disconnect callback. */
    var messages: seq<seq<byte>>
    var hasDisconnectCb: bool
    var disconnects: nat

    ghost var phase: Phase
    ghost var closed: bool
    ghost var sent: seq<seq<byte>>
    ghost var accepted: seq<byte>
    ghost var errors: nat
    ghost var failed: bool
    ghost var lost: seq<byte>
    ghost var inFlush: bool

    ghost function SenderView(): Sender
      reads this
    {
      Sender(fdOk, ready, queue, flushing)
    }

    ghost function View(): Endpoint
      reads this, sock
    {
      Endpoint(SenderView(), sock.out, sock.inn, phase, closed, sent, accepted, errors, failed, messages, lost)
    }

    ghost predicate Valid()
      reads this, sock
    {
      && sock.out.Valid()
      && forall i | 0 <= i < |queue| :: |queue[i]| < INT_LIMIT
    }

    constructor (sock: Socket, fdOk: bool)
      requires sock.out.Valid() && sock.out.wire == [] && !sock.out.noSpace && sock.out.broken == 0
      requires sock.inn.read == [] && sock.inn.avail == [] && !sock.inn.fin
      ensures this.sock == sock && this.fdOk == fdOk && Valid() && !inFlush
      ensures fdOk ==> Init(View())
    {
      this.sock, this.fdOk := sock, fdOk;
      ready, queue, flushing := true, [], false;
      messages, hasDisconnectCb, disconnects := [], false, 0;
      phase, closed := Parked, false;
      sent, accepted, errors, failed, lost, inFlush := [], [], 0, false, [], false;
    }

    /** Sends what the kernel takes and queues the rest. Called by the program, it is one step of the
        channel; called by a flush, it leaves the queue to the flush. */
    method Send(data: seq<byte>) returns (r: Outcome<nat>)
      requires Valid() && |data| < INT_LIMIT
      modifies this`ready, this`queue, this`sent, this`accepted, this`errors, sock`out
      ensures Valid()
      ensures SendPost(old(SenderView()), old(sock.out), data, SenderView(), sock.out, r)
      ensures if inFlush then sent == old(sent) && accepted == old(accepted) && errors == old(errors)
              else SendStep(old(View()), data, r, View())
    {
      ghost var k := sock.out;
      if !fdOk {
        r := Err;
      } else if !ready {
        queue := queue + [data];
        r := Ok(0);
      } else {
        r := SendDirectly(data);
      }
      if !inFlush {
        sent := sent + [data];
        accepted := accepted + Charged(data, k, sock.out, r);
        errors := errors + if r.Err? then 1 else 0;
      }
    }

    /** The loop of `send`. */
    method SendDirectly(data: seq<byte>) returns (r: Outcome<nat>)
      requires Valid() && |data| < INT_LIMIT && fdOk && ready
      modifies this`ready, this`queue, sock`out
      ensures Valid()
      ensures SendPost(old(SenderView()), old(sock.out), data, SenderView(), sock.out, r)
    {
      var total: Int := 0;
      TookNothing(sock.out);
      assert data[..0] == [] && data[..|data|] == data;
      while total < |data|
        invariant 0 <= total <= |data|
        invariant Took(old(sock.out), sock.out, data[..total])
        invariant SenderView() == old(SenderView()) && Valid()
      {
        label before:
        var res := sock.Send(data[total..]);
        TookTransitive(old(sock.out), old@before(sock.out), sock.out, data[..total],
                       if res.Sent? then data[total..][..res.n] else []);
        match res
        case SendAgain =>
          assert data[..total] + [] == data[..total];
          if !flushing {
            queue := queue + [data[total..]];
          }
          ready := false;
          break;
        case SendBroken =>
          assert data[..total] + [] == data[..total];
          return Err;
        case Sent(n) =>
          assert data[..total] + data[total..][..n] == data[..total + n];
          total := total + n;
      }
      r := Ok(total);
    }

    /** Sends the queue in order until it is empty or the kernel is full. */
    method FlushSendQueue() returns (r: Outcome<nat>)
      requires Valid() && !inFlush
      requires phase.Handling? && phase.writable && !closed
      modifies this`ready, this`queue, this`flushing, this`phase, this`errors, this`failed, this`inFlush
      modifies this`sent, this`accepted, sock`out
      ensures Valid() && !inFlush
      ensures FlushStep(old(View()), r, View()) && phase == Handling(false, old(phase.readable))
    {
      hide FlushPost;
      ghost var e := View();
      inFlush := true;
      r := FlushLoop();
      inFlush := false;
      ghost var c, out := SenderView(), sock.out;
      phase := phase.(writable := false);
      if r.Err? {
        errors, failed := errors + 1, true;
      }
      FlushIsStep(e, c, out, r, View());
    }

    /** The loop of `flush_send_queue`. */
    method FlushLoop() returns (r: Outcome<nat>)
      requires Valid() && inFlush
      modifies this`ready, this`queue, this`flushing, this`sent, this`accepted, this`errors, sock`out
      ensures Valid() && sent == old(sent) && accepted == old(accepted) && errors == old(errors)
      ensures FlushPost(old(SenderView()), old(sock.out), SenderView(), sock.out, r)
    {
      ghost var c, k := SenderView(), sock.out;
      ghost var i := 0;
      ready := true;
      flushing := true;
      assert c.queue[..0] == [];
      TookNothing(k);
      while queue != [] && ready
        invariant 0 <= i <= |c.queue| && queue == c.queue[i..] && ready && flushing
        invariant Took(k, sock.out, Flat(c.queue[..i])) && Valid()
        invariant (i > 0 ==> fdOk) && (!fdOk ==> sock.out == k)
        invariant sent == old(sent) && accepted == old(accepted) && errors == old(errors)
        decreases |c.queue| - i
      {
        var stop;
        stop, r := FlushFront(c, k, i);
        if stop {
          return;
        }
        i := i + 1;
      }
      assert c.queue[..|c.queue|] == c.queue;
      FlushEmptied(c, k, sock.out);
      flushing := false;
      r := Ok(0);
    }

    /** One turn of the loop of `flush_send_queue`, at message `i` of the queue that `c` had. */
    method FlushFront(ghost c: Sender, ghost k: OutBuf, ghost i: nat) returns (stop: bool, r: Outcome<nat>)
      requires Valid() && inFlush && ready && flushing && c.fdOk == fdOk
      requires i < |c.queue| && queue == c.queue[i..] && Took(k, sock.out, Flat(c.queue[..i]))
      requires (i > 0 ==> fdOk) && (!fdOk ==> sock.out == k)
      modifies this`ready, this`queue, this`flushing, this`sent, this`accepted, this`errors, sock`out
      ensures Valid() && sent == old(sent) && accepted == old(accepted) && errors == old(errors)
      ensures if stop then FlushPost(c, k, SenderView(), sock.out, r)
              else ready && flushing && fdOk && queue == c.queue[i + 1..] && Took(k, sock.out, Flat(c.queue[..i + 1]))
    {
      hide FlushPost, Remainder;
      var data := queue[0];
      var res := Send(data);
      ghost var n := |sock.out.wire| - |old(sock.out).wire|;
      TookNothing(old(sock.out));
      assert data[..0] == [] && data[..|data|] == data;
      TookPart(k, old(sock.out), sock.out, c.queue, i, n);
      if res.Err? {
        FlushBroken(c, k, sock.out, i, n);
        return true, Err;
      }
      var total := res.value;
      if total < |data| {
        FlushRefused(c, k, sock.out, i, n);
        queue := [data[total..]] + queue[1..];
        flushing := false;
        return true, Ok(0);
      }
      queue := queue[1..];
      return false, Ok(0);
    }

    /** Gathers bytes in chunks until the kernel has no more or about `max` are there. */
    method Recv(max: Int) returns (r: Outcome<bool>, buf: seq<byte>)
      requires 0 < max
      modifies sock`inn
      ensures RecvPost(old(sock.inn), max, sock.inn, buf, r)
      ensures sock.inn.Unread() == old(sock.inn.Unread()) - |buf|
    {
      buf := [];
      while true
        invariant Gave(old(sock.inn), sock.inn, buf) && |buf| < max
        invariant sock.inn.Unread() == old(sock.inn.Unread()) - |buf|
        decreases sock.inn.Unread()
      {
        assert !(|buf| > max);
        var size: int := if |buf| > max then max - |buf| else CHUNK_SIZE;
        label before:
        var res := sock.Recv(size);
        GaveTransitive(old(sock.inn), old@before(sock.inn), sock.inn, buf, if res.Data? then res.bytes else []);
        assert buf + [] == buf;
        match res
        case Data(bytes) =>
          buf := buf + bytes;
          if |buf| >= max {
            return Ok(true), buf;
          }
        case RecvAgain =>
          return Ok(false), buf;
        case RecvBroken =>
          return Err, buf;
        case Eof =>
          return Err, buf;
      }
    }

    /** What the program does inside a callback: any number of calls of `send` on this connection. */
    method CallbackSends(ghost run: seq<Endpoint>) returns (ghost longer: seq<Endpoint>)
      requires Valid() && !inFlush && IsRun(run) && Last(run) == View()
      modifies this`ready, this`queue, this`sent, this`accepted, this`errors, sock`out
      ensures Valid() && IsRun(longer) && run <= longer && Last(longer) == View()
    {
      longer := run;
      var calls: nat := *;
      while calls > 0
        invariant Valid() && IsRun(longer) && run <= longer && Last(longer) == View()
      {
        var data: seq<byte> := *;
        if |data| < INT_LIMIT {
          var r := Send(data);
          ExtendBySend(longer, data, r, View());
          longer := longer + [View()];
        }
        calls := calls - 1;
      }
    }

    /** The event loop delivers an event. `connected` is what the subclass's `is_connected` returned. The
        whole call, with all that callbacks send, is a run of the channel, so its theorems apply. A writable
        event of a connected handle is served first, by a flush; reading comes next, unless the peer hung up
        or the socket failed. The connection is kept exactly if it is connected, the event says nothing of a
        hang-up or an error, and reading met neither an error nor the end of the stream. */
    method OnData(connected: bool, events: Events) returns (keep: bool, ghost run: seq<Endpoint>)
      requires Valid() && !inFlush && !closed
      requires phase == Handling(events.writable, events.readable)
      modifies this, sock
      ensures Valid() && !inFlush
      ensures IsRun(run) && run[0] == old(View()) && Last(run) == View()
      ensures phase == Parked && closed == !keep
      ensures keep <==> connected && !events.hup && !events.err && !events.rdhup &&
                        (events.readable ==> sock.inn.broken == old(sock.inn.broken) && !sock.inn.fin)
      ensures |run| > 1 && if connected && events.writable then exists r :: FlushStep(run[0], r, run[1])
                           else run[1].c == run[0].c && run[1].out == run[0].out
      ensures if connected && !events.hup && !events.err && events.readable
              then ReadsAll(old(sock.inn), sock.inn, old(messages), messages, old(lost), lost)
              else sock.inn == old(sock.inn) && messages == old(messages) && lost == old(lost)
      ensures hasDisconnectCb == old(hasDisconnectCb)
      ensures disconnects == old(disconnects) + if !keep && hasDisconnectCb then 1 else 0
      ensures forall i | |old(messages)| <= i < |messages| :: |messages[i]| < MAX_MESSAGE + CHUNK_SIZE
    {
      var shouldClose := !connected;
      run := [View()];
      hide IsRun, FlushStep, View, SenderView;

      if !shouldClose && events.writable {
        var r := FlushSendQueue();
        ExtendByFlush(run, r, View());
        run := run + [View()];
      }
      if !shouldClose && events.hup {
        shouldClose := true;
      }
      if !shouldClose && events.err {
        shouldClose := true;
      }
      if !shouldClose && events.readable {
        shouldClose, run := ReadAll(run);
      }
      if !shouldClose && events.rdhup {
        shouldClose := true;
      }
      run := Leave(shouldClose, run);
      keep := !shouldClose;
    }

    /** The end of `on_data`: the disconnect callback of a connection that closes, which may still call `send`. */
    method Leave(shouldClose: bool, ghost run: seq<Endpoint>) returns (ghost longer: seq<Endpoint>)
      requires Valid() && !inFlush && IsRun(run) && Last(run) == View()
      requires if phase.Parked? then closed && shouldClose
               else !closed && (!shouldClose ==> phase == Handling(false, false))
      modifies this`phase, this`closed, this`disconnects
      modifies this`ready, this`queue, this`sent, this`accepted, this`errors, sock`out
      ensures Valid() && IsRun(longer) && run <= longer && Last(longer) == View()
      ensures phase == Parked && closed == shouldClose
      ensures disconnects == old(disconnects) + if shouldClose && hasDisconnectCb then 1 else 0
      ensures old(phase.Handling?) ==>
                |longer| > |run| && longer[|run|].c == Last(run).c && longer[|run|].out == Last(run).out
    {
      longer := run;
      if phase.Handling? {
        phase, closed := Parked, shouldClose;
        assert if shouldClose then CloseStep(Last(run), View()) else KeepStep(Last(run), View());
        Extend(run, View());
        longer := run + [View()];
      }
      if shouldClose && hasDisconnectCb {
        disconnects := disconnects + 1;
        longer := CallbackSends(longer);
      }
    }

    /** The EPOLLIN branch of `on_data`: one message callback per `recv` that succeeds. It closes exactly when
        reading failed. */
    method ReadAll(ghost run: seq<Endpoint>) returns (shouldClose: bool, ghost longer: seq<Endpoint>)
      requires Valid() && !inFlush && !closed && phase == Handling(false, true)
      requires IsRun(run) && Last(run) == View()
      modifies this`ready, this`queue, this`sent, this`accepted, this`errors, sock
      modifies this`messages, this`phase, this`closed, this`lost
      ensures Valid()
      ensures IsRun(longer) && run <= longer && Last(longer) == View()
      ensures |longer| > |run| && longer[|run|].c == Last(run).c && longer[|run|].out == Last(run).out
      ensures closed == shouldClose && phase == if shouldClose then Parked else Handling(false, false)
      ensures shouldClose <==> sock.inn.broken != old(sock.inn.broken) || sock.inn.fin
      ensures ReadsAll(old(sock.inn), sock.inn, old(messages), messages, old(lost), lost)
      ensures forall i | |old(messages)| <= i < |messages| :: |messages[i]| < MAX_MESSAGE + CHUNK_SIZE
    {
      ghost var m, k := |messages|, sock.inn;
      shouldClose, longer := false, run;
      var again := true;
      assert messages[m..] == [] && lost[|lost|..] == [];
      while again
        invariant Valid() && IsRun(longer) && run <= longer && Last(longer) == View()
        invariant again || |longer| > |run|
        invariant |longer| > |run| ==> longer[|run|].c == Last(run).c && longer[|run|].out == Last(run).out
        invariant |longer| == |run| ==> longer == run
        invariant !closed && !shouldClose && phase == Handling(false, again)
        invariant old(messages) <= messages && m == |old(messages)| && lost == old(lost)
        invariant forall i | m <= i < |messages| :: |messages[i]| < MAX_MESSAGE + CHUNK_SIZE
        invariant sock.inn.read == k.read + Flat(messages[m..]) && sock.inn.broken == k.broken
        invariant !again ==> !sock.inn.Readable()
        decreases sock.inn.Unread(), again
      {
        ghost var before := messages;
        shouldClose, again, longer := ReadOnce(longer);
        if shouldClose {
          assert k.read + Flat(messages[m..]) + lost[|old(lost)|..] == sock.inn.read;
          break;
        }
        assert messages[m..] == before[m..] + [messages[|before|]];
        FlatSnoc(before[m..], messages[|before|]);
      }
    }

    /** One turn of the EPOLLIN loop. */
    method ReadOnce(ghost run: seq<Endpoint>)
      returns (shouldClose: bool, again: bool, ghost longer: seq<Endpoint>)
      requires Valid() && !inFlush && !closed && phase == Handling(false, true)
      requires IsRun(run) && Last(run) == View()
      modifies this`ready, this`queue, this`sent, this`accepted, this`errors, sock
      modifies this`messages, this`phase, this`closed, this`lost
      ensures Valid()
      ensures IsRun(longer) && run <= longer && Last(longer) == View()
      ensures |longer| > |run| && longer[|run|].c == Last(run).c && longer[|run|].out == Last(run).out
      ensures closed == shouldClose && phase == if shouldClose then Parked else Handling(false, again)
      ensures if shouldClose then
                && messages == old(messages)
                && old(lost) <= lost && sock.inn.read == old(sock.inn.read) + lost[|old(lost)|..]
                && (sock.inn.broken != old(sock.inn.broken) || sock.inn.fin)
              else
                && lost == old(lost) && sock.inn.broken == old(sock.inn.broken)
                && |messages| == |old(messages)| + 1 && old(messages) <= messages
                && sock.inn.read == old(sock.inn.read) + messages[|old(messages)|]
                && |messages[|old(messages)|]| < MAX_MESSAGE + CHUNK_SIZE
                && if again then sock.inn.Unread() < old(sock.inn.Unread()) else !sock.inn.Readable()
      ensures sock.inn.Unread() <= old(sock.inn.Unread())
    {
      var res, buf := Recv(MAX_MESSAGE);
      if res.Err? {
        lost, phase, closed := lost + buf, Parked, true;
        ExtendByRecv(run, buf, res, View());
        return true, false, run + [View()];
      }
      shouldClose, again := false, res.value;
      messages := messages + [buf];
      phase := Handling(false, again);
      ExtendByRecv(run, buf, res, View());
      longer := CallbackSends(run + [View()]);
    }
  }
}
