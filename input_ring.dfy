/**
 * The console input buffer of src/kernel/console.c as a value: a 512-byte
 * circular queue with a read position and a write position and no test for
 * fullness.  The class in console.dfy keeps this state in an array and two
 * fields; the functions here say what its methods compute.
 */
module InputRing {

  const CONSBUFSIZE: nat := 512

  newtype byte = x: int | 0 <= x < 256

  /** What a device's proc function returns: a byte, or -1 when it has no data. */
  type Reading = v: int | -1 <= v < 256

  /** A snapshot of the `cons` structure. */
  datatype Ring = Ring(buf: seq<byte>, rpos: nat, wpos: nat)

  predicate Valid(r: Ring)
  {
    |r.buf| == CONSBUFSIZE && r.rpos < CONSBUFSIZE && r.wpos < CONSBUFSIZE
  }

  /** The number of unread bytes: the distance from rpos forward to wpos. */
  function Count(r: Ring): nat
  {
    (r.wpos - r.rpos) % CONSBUFSIZE
  }

  /** The unread bytes, oldest first. */
  function Unread(r: Ring): (u: seq<byte>)
    requires Valid(r)
    ensures |u| == Count(r) < CONSBUFSIZE
  {
    seq(Count(r), k requires 0 <= k < Count(r) => r.buf[(r.rpos + k) % CONSBUFSIZE])
  }

  /** No unread byte is 0; cons_intr keeps this by never storing 0. */
  predicate NoZeros(r: Ring)
    requires Valid(r)
  {
    forall k | 0 <= k < Count(r) :: Unread(r)[k] != 0
  }

  /**
   * One store of cons_intr: the byte goes to buf[wpos], no other cell and not
   * rpos changes, and wpos moves one place on, back to 0 at the end.
   */
  function Push(r: Ring, b: byte): (r': Ring)
    requires Valid(r)
    ensures Valid(r')
    ensures r'.buf[r.wpos] == b && r'.rpos == r.rpos && r'.wpos == (r.wpos + 1) % CONSBUFSIZE
    ensures forall i | 0 <= i < CONSBUFSIZE && i != r.wpos :: r'.buf[i] == r.buf[i]
  {
    var w := r.wpos + 1;
    Ring(r.buf[r.wpos := b], r.rpos, if w == CONSBUFSIZE then 0 else w)
  }

  /** The ring after cons_intr has drained `src`: zeros are skipped and -1 ends the drain. */
  function Drain(r: Ring, src: seq<Reading>): (r': Ring)
    requires Valid(r)
    ensures Valid(r')
    decreases |src|
  {
    if src == [] || src[0] == -1 then r
    else if src[0] == 0 then Drain(r, src[1..])
    else Drain(Push(r, src[0] as byte), src[1..])
  }

  /** The bytes cons_intr stores from `src`: the nonzero readings before the first -1. */
  function Stored(src: seq<Reading>): (s: seq<byte>)
    ensures |s| <= |src|
    ensures forall k | 0 <= k < |s| :: s[k] != 0
    ensures -1 !in src && 0 !in src ==> |s| == |src|
    decreases |src|
  {
    if src == [] || src[0] == -1 then []
    else if src[0] == 0 then Stored(src[1..])
    else [src[0] as byte] + Stored(src[1..])
  }

  /** The result of cons_getc's read from the buffer. */
  datatype Popped = Popped(ring: Ring, c: int)

  /**
   * The read of cons_getc: -1 when rpos == wpos, which leaves the ring as it
   * was; otherwise a byte, with one byte fewer unread.  The buffer and wpos
   * never change.
   */
  function Pop(r: Ring): (p: Popped)
    requires Valid(r)
    ensures Valid(p.ring) && p.ring.buf == r.buf && p.ring.wpos == r.wpos
    ensures p.c == -1 <==> Count(r) == 0
    ensures p.c == -1 ==> p.ring == r
    ensures p.c != -1 ==> 0 <= p.c < 256 && Count(p.ring) == Count(r) - 1
  {
    if r.rpos == r.wpos then Popped(r, -1)
    else
      var p := r.rpos + 1;
      Popped(Ring(r.buf, if p == CONSBUFSIZE then 0 else p, r.wpos), r.buf[r.rpos] as int)
  }

  // ---------------------------------------------------------------------------
  // Properties.

  /** With fewer than 511 unread bytes, a store appends its byte to the unread ones. */
  lemma PushAppends(r: Ring, b: byte)
    requires Valid(r) && Count(r) < CONSBUFSIZE - 1
    ensures Valid(Push(r, b))
    ensures Unread(Push(r, b)) == Unread(r) + [b]
  {
    var r' := Push(r, b);
    var n := Count(r);
    assert Count(r') == n + 1;
    forall k | 0 <= k < n + 1
      ensures Unread(r')[k] == (Unread(r) + [b])[k]
    {
      var i := (r.rpos + k) % CONSBUFSIZE;
      if k < n {
        assert i != r.wpos;
      } else {
        assert i == r.wpos;
      }
    }
  }

  /** A store made with 511 bytes unread makes wpos catch up with rpos: the buffer looks empty. */
  lemma PushOverflow(r: Ring, b: byte)
    requires Valid(r) && Count(r) == CONSBUFSIZE - 1
    ensures Valid(Push(r, b))
    ensures Push(r, b).wpos == r.rpos && Unread(Push(r, b)) == []
  {
  }

  /** A store of a nonzero byte keeps every unread byte nonzero. */
  lemma PushNoZeros(r: Ring, b: byte)
    requires Valid(r) && NoZeros(r) && b != 0
    ensures Valid(Push(r, b)) && NoZeros(Push(r, b))
  {
    if Count(r) < CONSBUFSIZE - 1 {
      PushAppends(r, b);
      var u := Unread(r) + [b];
      assert forall k | 0 <= k < |u| :: u[k] != 0 by {
        forall k | 0 <= k < |u|
          ensures u[k] != 0
        {
          if k < Count(r) {
            assert u[k] == Unread(r)[k];
          }
        }
      }
    } else {
      PushOverflow(r, b);
    }
  }

  /** Draining keeps the ring well formed and every unread byte nonzero, and leaves rpos alone. */
  lemma {:induction false} DrainNoZeros(r: Ring, src: seq<Reading>)
    requires Valid(r) && NoZeros(r)
    ensures Valid(Drain(r, src)) && NoZeros(Drain(r, src))
    ensures Drain(r, src).rpos == r.rpos
    decreases |src|
  {
    if src == [] || src[0] == -1 {
    } else if src[0] == 0 {
      DrainNoZeros(r, src[1..]);
    } else {
      PushNoZeros(r, src[0] as byte);
      DrainNoZeros(Push(r, src[0] as byte), src[1..]);
    }
  }

  /**
   * FIFO on the producer side: while fewer than 512 bytes would be unread,
   * draining appends exactly the stored readings, in order.
   */
  lemma {:induction false} DrainAppends(r: Ring, src: seq<Reading>)
    requires Valid(r) && Count(r) + |Stored(src)| < CONSBUFSIZE
    ensures Valid(Drain(r, src))
    ensures Unread(Drain(r, src)) == Unread(r) + Stored(src)
    decreases |src|
  {
    if src == [] || src[0] == -1 {
    } else if src[0] == 0 {
      DrainAppends(r, src[1..]);
    } else {
      var b := src[0] as byte;
      PushAppends(r, b);
      DrainAppends(Push(r, b), src[1..]);
      assert Unread(r) + [b] + Stored(src[1..]) == Unread(r) + Stored(src);
    }
  }

  /** The drain stops at the first -1: whatever follows it is never read. */
  lemma {:induction false} DrainStopsAtNoData(r: Ring, src: seq<Reading>, rest: seq<Reading>)
    requires Valid(r) && -1 !in src
    ensures Drain(r, src + [-1] + rest) == Drain(r, src)
    ensures Stored(src + [-1] + rest) == Stored(src)
    decreases |src|
  {
    if src == [] {
      assert (src + [-1] + rest)[0] == -1;
    } else {
      assert (src + [-1] + rest)[1..] == src[1..] + [-1] + rest;
      if src[0] == 0 {
        DrainStopsAtNoData(r, src[1..], rest);
      } else {
        DrainStopsAtNoData(Push(r, src[0] as byte), src[1..], rest);
      }
    }
  }

  /** Every store moves wpos one place on, modulo 512. */
  lemma {:induction false} DrainAdvances(r: Ring, src: seq<Reading>)
    requires Valid(r)
    ensures Valid(Drain(r, src))
    ensures Drain(r, src).wpos == (r.wpos + |Stored(src)|) % CONSBUFSIZE
    ensures Drain(r, src).rpos == r.rpos
    decreases |src|
  {
    if src == [] || src[0] == -1 {
    } else if src[0] == 0 {
      DrainAdvances(r, src[1..]);
    } else {
      var r' := Push(r, src[0] as byte);
      var n := |Stored(src[1..])|;
      DrainAdvances(r', src[1..]);
      assert |Stored(src)| == n + 1;
      assert (r'.wpos + n) % CONSBUFSIZE == (r.wpos + n + 1) % CONSBUFSIZE;
    }
  }

  /** 512 stores into an empty buffer bring wpos back to rpos: the buffer looks empty again. */
  lemma FullLapLooksEmpty(r: Ring, src: seq<Reading>)
    requires Valid(r) && Count(r) == 0 && |Stored(src)| == CONSBUFSIZE
    ensures Valid(Drain(r, src)) && Unread(Drain(r, src)) == []
  {
    DrainAdvances(r, src);
  }

  /**
   * FIFO on the consumer side: the read returns -1 exactly when nothing is
   * unread, and otherwise the oldest unread byte, which it removes.
   */
  lemma PopTakesOldest(r: Ring)
    requires Valid(r)
    ensures Pop(r).c == -1 <==> Unread(r) == []
    ensures Unread(r) != [] ==> Pop(r).c == Unread(r)[0] as int && Unread(Pop(r).ring) == Unread(r)[1..]
    ensures Unread(r) == [] ==> Pop(r).ring == r
  {
    if r.rpos != r.wpos {
      var r' := Pop(r).ring;
      assert Count(r') == Count(r) - 1;
      forall k | 0 <= k < Count(r')
        ensures Unread(r')[k] == Unread(r)[k + 1]
      {
        assert (r'.rpos + k) % CONSBUFSIZE == (r.rpos + k + 1) % CONSBUFSIZE;
      }
    }
  }

  /** From an empty buffer, fewer than 512 stored bytes are read back in the order they were stored. */
  lemma FirstInFirstOut(r: Ring, src: seq<Reading>)
    requires Valid(r) && Count(r) == 0 && 0 < |Stored(src)| < CONSBUFSIZE
    ensures Pop(Drain(r, src)).c == Stored(src)[0] as int
    ensures Unread(Pop(Drain(r, src)).ring) == Stored(src)[1..]
  {
    DrainAppends(r, src);
    PopTakesOldest(Drain(r, src));
  }

  /** With every unread byte nonzero, the read never returns 0. */
  lemma PopNeverZero(r: Ring)
    requires Valid(r) && NoZeros(r)
    ensures Pop(r).c != 0
    ensures NoZeros(Pop(r).ring)
  {
    PopTakesOldest(r);
    if Unread(r) != [] {
      var r' := Pop(r).ring;
      forall k | 0 <= k < Count(r')
        ensures Unread(r')[k] != 0
      {
        assert Unread(r')[k] == Unread(r)[k + 1];
      }
    }
  }

  /** A byte stored into an empty buffer is the next byte read, and the buffer is empty again after. */
  lemma PushThenPop(r: Ring, b: byte)
    requires Valid(r) && Count(r) == 0
    ensures Pop(Push(r, b)).c == b as int
    ensures Unread(Pop(Push(r, b)).ring) == []
  {
    PushAppends(r, b);
    PopTakesOldest(Push(r, b));
  }
}
