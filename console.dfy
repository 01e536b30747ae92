/**
 * The console input path of src/kernel/console.c: the `cons` buffer, the
 * drain loop cons_intr fed by the serial port and by the keyboard decoder,
 * the read cons_getc and the retry loop getchar.
 *
 * A device's input is the sequence of readings its proc function would
 * return before it reports "no data"; the serial port's readings are the
 * bytes it has received, the keyboard's are the codes kbd_proc_data returns
 * for the scancodes it has received.
 */
module Console {
  import R = InputRing
  import K = Keyboard

  /** What serial_proc_data returns for each received byte. */
  function SerialReadings(bytes: seq<R.byte>): (v: seq<R.Reading>)
    ensures |v| == |bytes| && forall i | 0 <= i < |bytes| :: v[i] == bytes[i] as int
  {
    seq(|bytes|, i requires 0 <= i < |bytes| => bytes[i] as int)
  }

  /** What kbd_proc_data returns for each decoded scancode. */
  function KbdReadings(codes: seq<K.ByteChar>): (v: seq<R.Reading>)
    ensures |v| == |codes| && forall i | 0 <= i < |codes| :: v[i] == codes[i] as int
  {
    seq(|codes|, i requires 0 <= i < |codes| => codes[i] as int)
  }

  /** The buffer after cons_getc's two polls: serial_intr (only if the port exists), then kbd_intr. */
  function AfterPoll(r: R.Ring, shift: bv8, serialExists: bool, bytes: seq<R.byte>, scancodes: seq<bv8>): (r': R.Ring)
    requires R.Valid(r)
    ensures R.Valid(r')
  {
    var afterSerial := if serialExists then R.Drain(r, SerialReadings(bytes)) else r;
    R.Drain(afterSerial, KbdReadings(K.Decode(shift, scancodes).outputs))
  }

  /** Draining the readings of one more code: it is stored unless it is 0. */
  lemma KbdDrainCons(r: R.Ring, c: K.ByteChar, rest: seq<K.ByteChar>)
    requires R.Valid(r)
    ensures R.Drain(r, KbdReadings([c] + rest))
         == R.Drain(if c as int != 0 then R.Push(r, c as int as R.byte) else r, KbdReadings(rest))
  {
    var v := KbdReadings([c] + rest);
    assert v[0] == c as int && v[1..] == KbdReadings(rest);
  }

  class Console {
    /** cons.buf, cons.rpos and cons.wpos. */
    const buf: array<R.byte>
    var rpos: nat
    var wpos: nat
    /** The decoder's static shift mask. */
    var shift: bv8
    /** The number of writes to the reset port so far. */
    var resets: nat
    /** serial_exists, as serial_init found it. */
    const serialExists: bool

    ghost function Snapshot(): R.Ring
      reads this, buf
    {
      R.Ring(buf[..], rpos, wpos)
    }

    ghost predicate Valid()
      reads this, buf
    {
      && buf.Length == R.CONSBUFSIZE
      && R.Valid(Snapshot())
      && R.NoZeros(Snapshot())
    }

    /** The state at boot: static storage is zero, so the buffer is empty and no modifier is held. */
    constructor(serialExists: bool)
      ensures Valid() && fresh(buf)
      ensures buf[..] == seq(R.CONSBUFSIZE, _ => 0 as R.byte)
      ensures rpos == 0 && wpos == 0 && R.Unread(Snapshot()) == []
      ensures shift == 0 && resets == 0 && this.serialExists == serialExists
    {
      buf := new R.byte[R.CONSBUFSIZE](_ => 0);
      rpos, wpos := 0, 0;
      shift, resets := 0, 0;
      this.serialExists := serialExists;
    }

    /** `cons.buf[cons.wpos++] = c`, with wpos back to 0 at the end of the buffer. */
    method Store(c: R.byte)
      requires Valid() && c != 0
      modifies this, buf
      ensures Valid()
      ensures Snapshot() == R.Push(old(Snapshot()), c)
      ensures shift == old(shift) && resets == old(resets)
    {
      R.PushNoZeros(Snapshot(), c);
      buf[wpos] := c;
      wpos := wpos + 1;
      if wpos == R.CONSBUFSIZE {
        wpos := 0;
      }
    }

    /** cons_intr: store every nonzero reading until the source reports no data (-1 or the end). */
    method ConsIntr(src: seq<R.Reading>)
      requires Valid()
      modifies this, buf
      ensures Valid()
      ensures Snapshot() == R.Drain(old(Snapshot()), src)
      ensures shift == old(shift) && resets == old(resets)
    {
      var i := 0;
      while i < |src| && src[i] != -1
        invariant 0 <= i <= |src| && Valid()
        invariant R.Drain(Snapshot(), src[i..]) == R.Drain(old(Snapshot()), src)
        invariant shift == old(shift) && resets == old(resets)
        decreases |src| - i
      {
        var c := src[i];
        assert src[i..][1..] == src[i + 1..];
        i := i + 1;
        if c == 0 {
          continue;
        }
        Store(c as R.byte);
      }
    }

    /** serial_intr: drain the serial port only when it exists. */
    method SerialIntr(bytes: seq<R.byte>)
      requires Valid()
      modifies this, buf
      ensures Valid()
      ensures Snapshot() == if serialExists then R.Drain(old(Snapshot()), SerialReadings(bytes)) else old(Snapshot())
      ensures shift == old(shift) && resets == old(resets)
    {
      if serialExists {
        ConsIntr(SerialReadings(bytes));
      }
    }

    /**
     * One turn of kbd_intr's drain: one call of kbd_proc_data, which updates
     * the shift mask and may write the reset port, and the store of its code
     * unless that code is 0.
     */
    method KbdStep(data: bv8)
      requires Valid()
      modifies this, buf
      ensures Valid()
      ensures var d := K.Step(old(shift), data);
              && shift == d.shift
              && resets == old(resets) + (if d.reset then 1 else 0)
              && Snapshot() == if d.c as int != 0 then R.Push(old(Snapshot()), d.c as int as R.byte) else old(Snapshot())
    {
      var d := K.Step(shift, data);
      shift := d.shift;
      if d.reset {
        resets := resets + 1;
      }
      var c := d.c as int;
      if c != 0 {
        Store(c as R.byte);
      }
    }

    /** kbd_intr: cons_intr driven by kbd_proc_data, one decoder step per scancode. */
    method KbdIntr(scancodes: seq<bv8>)
      requires Valid()
      modifies this, buf
      ensures Valid()
      ensures var run := K.Decode(old(shift), scancodes);
              && shift == run.shift
              && resets == old(resets) + run.resets
              && Snapshot() == R.Drain(old(Snapshot()), KbdReadings(run.outputs))
    {
      ghost var total := K.Decode(shift, scancodes);
      var i := 0;
      while i < |scancodes|
        invariant 0 <= i <= |scancodes| && Valid()
        invariant K.Decode(shift, scancodes[i..]).shift == total.shift
        invariant resets + K.Decode(shift, scancodes[i..]).resets == old(resets) + total.resets
        invariant R.Drain(Snapshot(), KbdReadings(K.Decode(shift, scancodes[i..]).outputs))
               == R.Drain(old(Snapshot()), KbdReadings(total.outputs))
        decreases |scancodes| - i
      {
        ghost var d := K.Step(shift, scancodes[i]);
        assert scancodes[i..] == [scancodes[i]] + scancodes[i + 1..];
        K.DecodeCons(shift, scancodes[i], scancodes[i + 1..]);
        KbdDrainCons(Snapshot(), d.c, K.Decode(d.shift, scancodes[i + 1..]).outputs);
        KbdStep(scancodes[i]);
        i := i + 1;
      }
    }

    /**
     * cons_getc: poll both devices, then take the oldest unread byte, or -1
     * when rpos == wpos.  It never returns 0.
     */
    method ConsGetc(bytes: seq<R.byte>, scancodes: seq<bv8>) returns (c: int)
      requires Valid()
      modifies this, buf
      ensures Valid()
      ensures var p := R.Pop(AfterPoll(old(Snapshot()), old(shift), serialExists, bytes, scancodes));
              c == p.c && Snapshot() == p.ring
      ensures c != 0
      ensures var run := K.Decode(old(shift), scancodes);
              shift == run.shift && resets == old(resets) + run.resets
    {
      SerialIntr(bytes);
      KbdIntr(scancodes);
      R.PopNeverZero(Snapshot());
      if rpos != wpos {
        c := buf[rpos] as int;
        rpos := rpos + 1;
        if rpos == R.CONSBUFSIZE {
          rpos := 0;
        }
      } else {
        c := -1;
      }
    }

    /**
     * getchar: call cons_getc until it returns something other than 0.  As
     * cons_getc never returns 0, the first call's result is returned, -1
     * included; polls after the first would find no new input.
     */
    method GetChar(bytes: seq<R.byte>, scancodes: seq<bv8>) returns (c: int)
      requires Valid()
      modifies this, buf
      ensures Valid()
      ensures var p := R.Pop(AfterPoll(old(Snapshot()), old(shift), serialExists, bytes, scancodes));
              c == p.c && Snapshot() == p.ring
      ensures var run := K.Decode(old(shift), scancodes);
              shift == run.shift && resets == old(resets) + run.resets
    {
      var first := true;
      c := 0;
      while first || c == 0
        invariant Valid()
        invariant first ==> Snapshot() == old(Snapshot()) && shift == old(shift) && resets == old(resets)
        invariant !first ==> c != 0
        invariant !first ==> (var p := R.Pop(AfterPoll(old(Snapshot()), old(shift), serialExists, bytes, scancodes));
                              c == p.c && Snapshot() == p.ring)
        invariant !first ==> (var run := K.Decode(old(shift), scancodes);
                              shift == run.shift && resets == old(resets) + run.resets)
        decreases if first then 1 else 0
      {
        c := ConsGetc(if first then bytes else [], if first then scancodes else []);
        first := false;
      }
    }
  }
}
