/** Byte strings, message queues, and what is left of a queue once its first bytes are gone. */
module Bytes {

  type byte = b: int | 0 <= b < 256

  /** All the bytes of a queue of messages, in order. */
  function Flat(q: seq<seq<byte>>): seq<byte> {
    if q == [] then [] else q[0] + Flat(q[1..])
  }

  /** The queue that remains after its first `k` bytes are taken: messages that are used up (and empty
      messages reached on the way) disappear, and the message in which the cut falls is trimmed. */
  function Remainder(q: seq<seq<byte>>, k: nat): seq<seq<byte>> {
    if q == [] then []
    else if |q[0]| <= k then Remainder(q[1..], k - |q[0]|)
    else [q[0][k..]] + q[1..]
  }

  lemma {:induction false} FlatConcat(a: seq<seq<byte>>, b: seq<seq<byte>>)
    ensures Flat(a + b) == Flat(a) + Flat(b)
  {
    if a == [] {
      assert a + b == b;
    } else {
      assert (a + b)[1..] == a[1..] + b;
      FlatConcat(a[1..], b);
    }
  }

  lemma FlatSnoc(q: seq<seq<byte>>, m: seq<byte>)
    ensures Flat(q + [m]) == Flat(q) + m
  {
    FlatConcat(q, [m]);
    assert Flat([m]) == m + Flat([]);
  }

  lemma FlatDrop(q: seq<seq<byte>>, i: nat)
    requires i <= |q|
    ensures Flat(q) == Flat(q[..i]) + Flat(q[i..])
  {
    FlatConcat(q[..i], q[i..]);
    assert q[..i] + q[i..] == q;
  }

  /** Splitting a queue in front of message `i`. */
  lemma FlatSplit(q: seq<seq<byte>>, i: nat)
    requires i < |q|
    ensures Flat(q) == Flat(q[..i]) + q[i] + Flat(q[i + 1..])
    ensures Flat(q[..i + 1]) == Flat(q[..i]) + q[i]
    ensures Flat(q[i..]) == q[i] + Flat(q[i + 1..])
  {
    assert q[..i + 1] == q[..i] + [q[i]];
    FlatSnoc(q[..i], q[i]);
    assert q == q[..i + 1] + q[i + 1..];
    FlatConcat(q[..i + 1], q[i + 1..]);
  }

  /** Taking `k` bytes and keeping the remainder loses, repeats and reorders nothing. */
  lemma {:induction false} RemainderFlat(q: seq<seq<byte>>, k: nat)
    requires k <= |Flat(q)|
    ensures Flat(Remainder(q, k)) == Flat(q)[k..]
  {
    if q != [] {
      if |q[0]| <= k {
        RemainderFlat(q[1..], k - |q[0]|);
      } else {
        var r := [q[0][k..]] + q[1..];
        assert r[1..] == q[1..];
        assert Flat(r) == q[0][k..] + Flat(q[1..]);
      }
    }
  }

  /** A remainder never starts with an empty message, and is empty exactly when no byte is left. */
  lemma {:induction false} RemainderFront(q: seq<seq<byte>>, k: nat)
    ensures Remainder(q, k) != [] ==> Remainder(q, k)[0] != []
    ensures Remainder(q, k) == [] <==> |Flat(q)| <= k
  {
    if q != [] && |q[0]| <= k {
      RemainderFront(q[1..], k - |q[0]|);
    }
  }

  /** A remainder is a suffix of the queue with its front message trimmed. */
  lemma {:induction false} RemainderAt(q: seq<seq<byte>>, i: nat, j: nat)
    requires i < |q| && j < |q[i]|
    ensures Remainder(q, |Flat(q[..i])| + j) == [q[i][j..]] + q[i + 1..]
  {
    if i == 0 {
      assert q[..0] == [];
    } else {
      assert q[..i][0] == q[0] && q[..i][1..] == q[1..][..i - 1];
      RemainderAt(q[1..], i - 1, j);
      assert q[1..][i - 1 + 1..] == q[i + 1..];
    }
  }
}
