/**
 * The hardware capabilities the SSD1675 driver is generic over: one SPI write
 * handle, three output pins (chip select, data/command select, reset), one
 * input pin (BUSY) and a millisecond delay.  The model replaces them by a
 * recording test double: every call the driver makes is appended to a trace
 * of events, the BUSY input is a script of samples, and which calls fail is
 * fixed in advance by a fault plan.
 */
module Hal {

  type byte = b: int | 0 <= b < 0x100

  /** The `u16` of the Y address counter. */
  type u16 = n: int | 0 <= n < 0x1_0000

  datatype Option<T> = None | Some(value: T)

  /** The driver's three output lines. */
  datatype Pin = Cs | Dc | Rst

  datatype Level = Low | High

  /** One call on a hardware handle, in the order the driver issues it. */
  datatype Event =
    | SetPin(pin: Pin, level: Level)   // `set_low` / `set_high` on an output pin
    | SpiWrite(bytes: seq<byte>)       // one `spi.write` transaction
    | ReadBusy                         // `busy.is_high`
    | DelayMs(ms: byte)                // `delay.delay_ms`

  /**
   * Which calls of the test double fail, keyed by the position of the call
   * in the trace: a pin call (set or read) at a position in `gpio` fails with
   * that GPIO error, an SPI write at a position in `spi` fails with that SPI
   * error.  Delays cannot fail.
   */
  datatype Plan<S, G> = Plan(gpio: map<nat, G>, spi: map<nat, S>)

  /**
   * The observable state of the double: the calls issued so far and the BUSY
   * samples not yet read.
   */
  datatype Hw = Hw(trace: seq<Event>, busy: seq<Level>)

  /** The payloads of the SPI transactions in a trace, in order. */
  function Writes(t: seq<Event>): (w: seq<seq<byte>>)
    ensures |w| <= |t|
  {
    if t == [] then []
    else (if t[0].SpiWrite? then [t[0].bytes] else []) + Writes(t[1..])
  }

  lemma {:induction false} WritesAppend(a: seq<Event>, b: seq<Event>)
    ensures Writes(a + b) == Writes(a) + Writes(b)
  {
    if a == [] {
      assert a + b == b;
    } else {
      var w0 := if a[0].SpiWrite? then [a[0].bytes] else [];
      assert (a + b)[0] == a[0];
      assert (a + b)[1..] == a[1..] + b;
      WritesAppend(a[1..], b);
      assert Writes(a + b) == w0 + (Writes(a[1..]) + Writes(b));
      assert w0 + (Writes(a[1..]) + Writes(b)) == (w0 + Writes(a[1..])) + Writes(b);
    }
  }

  /** What was written after `t0`, split at the later point `t1`. */
  lemma WritesAfter(t0: seq<Event>, t1: seq<Event>, t: seq<Event>)
    requires t0 <= t1 <= t
    ensures Writes(t[|t0|..]) == Writes(t1[|t0|..]) + Writes(t[|t1|..])
  {
    assert t[|t0|..] == t1[|t0|..] + t[|t1|..];
    WritesAppend(t1[|t0|..], t[|t1|..]);
  }

  /** The number of occurrences of `e` in `t`. */
  function Count(e: Event, t: seq<Event>): (n: nat)
    ensures n <= |t|
    ensures n == 0 <==> e !in t
  {
    if t == [] then 0
    else (if t[0] == e then 1 else 0) + Count(e, t[1..])
  }

  lemma {:induction false} CountAppend(e: Event, a: seq<Event>, b: seq<Event>)
    ensures Count(e, a + b) == Count(e, a) + Count(e, b)
  {
    if a == [] {
      assert a + b == b;
    } else {
      assert (a + b)[1..] == a[1..] + b;
      CountAppend(e, a[1..], b);
    }
  }

  lemma SliceSplit<T>(s: seq<T>, i: nat, j: nat)
    requires i <= j <= |s|
    ensures s[i..] == s[i..j] + s[j..]
  {
  }
}
