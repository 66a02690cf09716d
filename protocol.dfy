/**
 * The reference semantics of the driver: every driver operation is a fixed
 * program of primitive steps, and `Exec` runs such a program against the
 * test double of module Hal, stopping at the first failing call the way the
 * `?` operator does in the driver.
 */
module Protocol {
  import opened Hal

  /** The driver's error: a failure of the SPI bus or of a GPIO pin. */
  datatype InkyError<S, G> = Spi(spi: S) | Gpio(gpio: G)

  /** `Result<(), InkyError<S, G>>`. */
  datatype Outcome<S, G> = Ok | Err(error: InkyError<S, G>)

  /** The outcome of running something, and the state of the double after it. */
  datatype Run<S, G> = Run(outcome: Outcome<S, G>, hw: Hw)

  /** A primitive step of a driver operation. */
  datatype Step =
    | Set(pin: Pin, level: Level)
    | Write(bytes: seq<byte>)
    | Wait(ms: byte)
    | WaitWhileBusy   // the busy-wait loop

  /** The poll interval of the busy-wait loop, in milliseconds. */
  const POLL_MS: byte := 10

  /** The error the test double returns for call `e` issued at trace position `pos`, if any. */
  function Raised<S, G>(plan: Plan<S, G>, e: Event, pos: nat): Option<InkyError<S, G>>
  {
    match e
    case SetPin(_, _) => if pos in plan.gpio then Some(Gpio(plan.gpio[pos])) else None
    case ReadBusy => if pos in plan.gpio then Some(Gpio(plan.gpio[pos])) else None
    case SpiWrite(_) => if pos in plan.spi then Some(Spi(plan.spi[pos])) else None
    case DelayMs(_) => None
  }

  /**
   * The busy-wait loop: read BUSY; on a read error stop with it; while the
   * sample is High, delay POLL_MS and read again; stop with Ok on the first
   * Low sample.  A script that has run out reads Low.
   */
  function AwaitIdle<S, G>(plan: Plan<S, G>, h: Hw): (r: Run<S, G>)
    ensures h.trace <= r.hw.trace
    ensures |r.hw.trace| > |h.trace| && r.hw.trace[|h.trace|] == ReadBusy
    ensures |r.hw.busy| <= |h.busy|
    decreases |h.busy|
  {
    var t := h.trace + [ReadBusy];
    match Raised(plan, ReadBusy, |h.trace|)
    case Some(e) => Run(Err(e), h.(trace := t))
    case None =>
      if h.busy == [] then Run(Ok, h.(trace := t))
      else if h.busy[0] == High then AwaitIdle(plan, Hw(t + [DelayMs(POLL_MS)], h.busy[1..]))
      else Run(Ok, Hw(t, h.busy[1..]))
  }

  /** The event a step other than WaitWhileBusy issues. */
  function EventOf(s: Step): Event
    requires !s.WaitWhileBusy?
  {
    match s
    case Set(pin, level) => SetPin(pin, level)
    case Write(bytes) => SpiWrite(bytes)
    case Wait(ms) => DelayMs(ms)
  }

  function StepRun<S, G>(plan: Plan<S, G>, s: Step, h: Hw): (r: Run<S, G>)
    ensures h.trace <= r.hw.trace
  {
    if s.WaitWhileBusy? then AwaitIdle(plan, h)
    else
      var h' := h.(trace := h.trace + [EventOf(s)]);
      match Raised(plan, EventOf(s), |h.trace|)
      case Some(e) => Run(Err(e), h')
      case None => Run(Ok, h')
  }

  /** Runs a program; the first failing step ends it. */
  function Exec<S, G>(plan: Plan<S, G>, p: seq<Step>, h: Hw): (r: Run<S, G>)
    ensures h.trace <= r.hw.trace
    // `h` never decides termination; naming it keeps the verifier from
    // expanding runs of constant programs all the way down
    decreases p, h
  {
    if p == [] then Run(Ok, h)
    else
      var r1 := StepRun(plan, p[0], h);
      if r1.outcome.Err? then r1 else Exec(plan, p[1..], r1.hw)
  }

  /** Runs `q` after `r` unless `r` failed. */
  function Then<S, G>(plan: Plan<S, G>, r: Run<S, G>, q: seq<Step>): Run<S, G>
  {
    if r.outcome.Err? then r else Exec(plan, q, r.hw)
  }

  /** A program without busy-waits: its events do not depend on BUSY. */
  predicate Fixed(p: seq<Step>)
  {
    forall i :: 0 <= i < |p| ==> !p[i].WaitWhileBusy?
  }

  /** The events a fixed program issues when nothing fails. */
  function Events(p: seq<Step>): (t: seq<Event>)
    requires Fixed(p)
    ensures |t| == |p|
    ensures forall i :: 0 <= i < |p| ==> t[i] == EventOf(p[i])
  {
    if p == [] then [] else [EventOf(p[0])] + Events(p[1..])
  }

  /** The SPI payloads a program writes when nothing fails. */
  function StepWrites(p: seq<Step>): (w: seq<seq<byte>>)
    ensures |w| <= |p|
  {
    if p == [] then []
    else (if p[0].Write? then [p[0].bytes] else []) + StepWrites(p[1..])
  }

  /** `k` rounds of the busy-wait loop that found BUSY high. */
  function Polls(k: nat): (t: seq<Event>)
    ensures |t| == 2 * k
  {
    if k == 0 then [] else [ReadBusy, DelayMs(POLL_MS)] + Polls(k - 1)
  }

  /** Unfolds `Exec` by one step. */
  lemma ExecCons<S, G>(plan: Plan<S, G>, p: seq<Step>, h: Hw)
    requires p != []
    ensures Exec(plan, p, h) == Then(plan, StepRun(plan, p[0], h), p[1..])
  {
  }

  /** One more poll extends the trace at its end. */
  lemma {:induction false} PollsSnoc(k: nat)
    ensures Polls(k + 1) == Polls(k) + [ReadBusy, DelayMs(POLL_MS)]
  {
    if k > 0 {
      PollsSnoc(k - 1);
    }
  }

  /** Running `p + q` is running `p`, then `q` unless `p` failed. */
  lemma {:induction false} ExecSplit<S, G>(plan: Plan<S, G>, p: seq<Step>, q: seq<Step>, h: Hw)
    ensures Exec(plan, p + q, h) == Then(plan, Exec(plan, p, h), q)
    decreases p
  {
    if p == [] {
      assert p + q == q;
    } else {
      assert (p + q)[0] == p[0];
      assert (p + q)[1..] == p[1..] + q;
      var r1 := StepRun(plan, p[0], h);
      if r1.outcome.Ok? {
        ExecSplit(plan, p[1..], q, r1.hw);
      }
    }
  }

  /**
   * Whenever a program fails, the last call in the trace is the call that
   * failed, with the error it raised: nothing is issued after a failure.
   * A GPIO error comes from a pin call, an SPI error from an SPI write.
   */
  lemma {:induction false} ExecFailStops<S, G>(plan: Plan<S, G>, p: seq<Step>, h: Hw)
    ensures var r := Exec(plan, p, h);
            r.outcome.Err? ==>
              && |r.hw.trace| > |h.trace|
              && var last := r.hw.trace[|r.hw.trace| - 1];
                 && Raised(plan, last, |r.hw.trace| - 1) == Some(r.outcome.error)
                 && (r.outcome.error.Spi? <==> last.SpiWrite?)
                 && (r.outcome.error.Gpio? <==> last.SetPin? || last.ReadBusy?)
    decreases p
  {
    if p != [] {
      var r1 := StepRun(plan, p[0], h);
      if r1.outcome.Err? {
        StepFailStops(plan, p[0], h);
      } else {
        ExecFailStops(plan, p[1..], r1.hw);
      }
    }
  }

  lemma StepFailStops<S, G>(plan: Plan<S, G>, s: Step, h: Hw)
    ensures var r := StepRun(plan, s, h);
            r.outcome.Err? ==>
              && |r.hw.trace| > |h.trace|
              && Raised(plan, r.hw.trace[|r.hw.trace| - 1], |r.hw.trace| - 1) == Some(r.outcome.error)
  {
    if s.WaitWhileBusy? {
      AwaitIdleFailStops(plan, h);
    }
  }

  lemma {:induction false} AwaitIdleFailStops<S, G>(plan: Plan<S, G>, h: Hw)
    ensures var r := AwaitIdle(plan, h);
            r.outcome.Err? ==>
              Raised(plan, r.hw.trace[|r.hw.trace| - 1], |r.hw.trace| - 1) == Some(r.outcome.error)
    decreases |h.busy|
  {
    var t := h.trace + [ReadBusy];
    if Raised<S, G>(plan, ReadBusy, |h.trace|).None? && h.busy != [] && h.busy[0] == High {
      AwaitIdleFailStops(plan, Hw(t + [DelayMs(POLL_MS)], h.busy[1..]));
    }
  }

  /** The busy-wait loop writes nothing on the SPI bus. */
  lemma {:induction false} AwaitIdleWritesNothing<S, G>(plan: Plan<S, G>, h: Hw)
    ensures var r := AwaitIdle(plan, h);
            Writes(r.hw.trace[|h.trace|..]) == []
    decreases |h.busy|
  {
    var t := h.trace + [ReadBusy];
    var r := AwaitIdle(plan, h);
    if Raised<S, G>(plan, ReadBusy, |h.trace|).None? && h.busy != [] && h.busy[0] == High {
      var h1 := Hw(t + [DelayMs(POLL_MS)], h.busy[1..]);
      AwaitIdleWritesNothing(plan, h1);
      assert r.hw.trace[|h.trace|..] == [ReadBusy, DelayMs(POLL_MS)] + r.hw.trace[|h1.trace|..];
      WritesAppend([ReadBusy, DelayMs(POLL_MS)], r.hw.trace[|h1.trace|..]);
    } else {
      assert r.hw.trace[|h.trace|..] == [ReadBusy];
    }
  }

  /**
   * The SPI transactions of a run are the Write steps of its program, in
   * order: all of them when it succeeds, a prefix of them when it fails.
   */
  lemma {:induction false} ExecWrites<S, G>(plan: Plan<S, G>, p: seq<Step>, h: Hw)
    ensures var r := Exec(plan, p, h);
            && Writes(r.hw.trace[|h.trace|..]) <= StepWrites(p)
            && (r.outcome.Ok? ==> Writes(r.hw.trace[|h.trace|..]) == StepWrites(p))
    decreases p
  {
    var r := Exec(plan, p, h);
    if p == [] {
      assert r.hw.trace[|h.trace|..] == [];
    } else {
      var r1 := StepRun(plan, p[0], h);
      var w0 := if p[0].Write? then [p[0].bytes] else [];
      StepRunWrites(plan, p[0], h);
      assert StepWrites(p) == w0 + StepWrites(p[1..]);
      if r1.outcome.Err? {
        assert r == r1;
      } else {
        assert r == Exec(plan, p[1..], r1.hw);
        ExecWrites(plan, p[1..], r1.hw);
        WritesAfter(h.trace, r1.hw.trace, r.hw.trace);
      }
    }
  }

  /** One step writes its own payload, if it is a Write, and nothing else. */
  lemma StepRunWrites<S, G>(plan: Plan<S, G>, s: Step, h: Hw)
    ensures var r := StepRun(plan, s, h);
            Writes(r.hw.trace[|h.trace|..]) == if s.Write? then [s.bytes] else []
  {
    var r := StepRun(plan, s, h);
    if s.WaitWhileBusy? {
      AwaitIdleWritesNothing(plan, h);
    } else {
      assert r.hw.trace[|h.trace|..] == [EventOf(s)];
    }
  }

  /**
   * BUSY sampled High `k` times and then Low, with no read failing: the loop
   * reads k + 1 times, delays POLL_MS exactly k times, consumes those k + 1
   * samples and returns Ok.
   */
  lemma {:induction false} AwaitIdleHighs<S, G>(plan: Plan<S, G>, h: Hw, k: nat)
    requires k < |h.busy| && h.busy[k] == Low
    requires forall i :: 0 <= i < k ==> h.busy[i] == High
    requires forall n :: n in plan.gpio ==> n < |h.trace| || |h.trace| + 2 * k < n
    ensures AwaitIdle(plan, h) == Run(Ok, Hw(h.trace + Polls(k) + [ReadBusy], h.busy[k + 1..]))
    decreases k
  {
    if k > 0 {
      var h1 := Hw(h.trace + [ReadBusy] + [DelayMs(POLL_MS)], h.busy[1..]);
      assert h.busy[0] == High;
      AwaitIdleHighs(plan, h1, k - 1);
      assert h.trace + Polls(k) == h1.trace + Polls(k - 1);
      assert h.busy[1..][k..] == h.busy[k + 1..];
    }
  }

  /** k polls hold k + 1 reads of BUSY after the final read, and k delays. */
  lemma PollsCount(k: nat)
    ensures Count(ReadBusy, Polls(k) + [ReadBusy]) == k + 1
    ensures Count(DelayMs(POLL_MS), Polls(k) + [ReadBusy]) == k
    ensures forall e :: e in Polls(k) ==> e == ReadBusy || e == DelayMs(POLL_MS)
  {
    PollsCounts(ReadBusy, k);
    PollsCounts(DelayMs(POLL_MS), k);
    PollsMembers(k);
    CountAppend(ReadBusy, Polls(k), [ReadBusy]);
    CountAppend(DelayMs(POLL_MS), Polls(k), [ReadBusy]);
  }

  lemma {:induction false} PollsCounts(e: Event, k: nat)
    requires e == ReadBusy || e == DelayMs(POLL_MS)
    ensures Count(e, Polls(k)) == k
  {
    if k > 0 {
      var round, t := [ReadBusy, DelayMs(POLL_MS)], Polls(k - 1);
      assert Polls(k) == round + t;
      PollsCounts(e, k - 1);
      RoundCounts();
      CountAppend(e, round, t);
    }
  }

  lemma {:induction false} PollsMembers(k: nat)
    ensures forall e :: e in Polls(k) ==> e == ReadBusy || e == DelayMs(POLL_MS)
  {
    if k > 0 {
      var round, t := [ReadBusy, DelayMs(POLL_MS)], Polls(k - 1);
      assert Polls(k) == round + t;
      PollsMembers(k - 1);
    }
  }

  /** One round of the loop reads BUSY once and delays once. */
  lemma RoundCounts()
    ensures Count(ReadBusy, [ReadBusy, DelayMs(POLL_MS)]) == 1
    ensures Count(DelayMs(POLL_MS), [ReadBusy, DelayMs(POLL_MS)]) == 1
  {
    assert [ReadBusy, DelayMs(POLL_MS)][1..] == [DelayMs(POLL_MS)];
  }

  /**
   * What running a fixed program whose events are `frame` does, from `h` to
   * `r`: it issues the events of `frame` in order, up to and including the
   * first call that fails, and nothing else; BUSY is not read.  It returns Ok
   * exactly when it issued every event and none failed; otherwise it returns
   * the error of the last event it issued, and every earlier one succeeded.
   */
  ghost predicate IssuesUntilFailure<S, G>(plan: Plan<S, G>, h: Hw, r: Run<S, G>, frame: seq<Event>)
  {
    && |h.trace| <= |r.hw.trace| <= |h.trace| + |frame|
    && var n := |r.hw.trace| - |h.trace|;
       && r.hw.trace == h.trace + frame[..n]
       && r.hw.busy == h.busy
       && (forall i :: 0 <= i < n - 1 ==> Raised(plan, frame[i], |h.trace| + i).None?)
       && (r.outcome.Ok? <==> n == |frame| && (n == 0 || Raised(plan, frame[n - 1], |h.trace| + n - 1).None?))
       && (r.outcome.Err? ==> 0 < n && Raised(plan, frame[n - 1], |h.trace| + n - 1) == Some(r.outcome.error))
  }

  /** Every fixed program issues its own events until the first failure. */
  lemma {:induction false} ExecFixedIssues<S, G>(plan: Plan<S, G>, p: seq<Step>, h: Hw)
    requires Fixed(p)
    ensures IssuesUntilFailure(plan, h, Exec(plan, p, h), Events(p))
    decreases p
  {
    if p == [] {
      assert Exec(plan, p, h) == Run(Ok, h);
      assert h.trace + Events(p)[..0] == h.trace;
    } else {
      var ev := EventOf(p[0]);
      var h1 := h.(trace := h.trace + [ev]);
      assert Events(p) == [ev] + Events(p[1..]);
      match Raised(plan, ev, |h.trace|)
      case Some(e) =>
        assert Exec(plan, p, h) == Run(Err(e), h1);
        assert h1.trace == h.trace + Events(p)[..1];
      case None =>
        assert Exec(plan, p, h) == Exec(plan, p[1..], h1);
        assert Fixed(p[1..]) by {
          forall i | 0 <= i < |p| - 1 ensures !p[1..][i].WaitWhileBusy? {
            assert p[1..][i] == p[i + 1];
          }
        }
        ExecFixedIssues(plan, p[1..], h1);
        IssuesCons(plan, h, Exec(plan, p[1..], h1), ev, Events(p[1..]));
    }
  }

  /** A call that succeeds, followed by a run that issues `frame`, issues `[ev] + frame`. */
  lemma IssuesCons<S, G>(plan: Plan<S, G>, h: Hw, r: Run<S, G>, ev: Event, frame: seq<Event>)
    requires Raised(plan, ev, |h.trace|).None?
    requires IssuesUntilFailure(plan, h.(trace := h.trace + [ev]), r, frame)
    ensures IssuesUntilFailure(plan, h, r, [ev] + frame)
  {
    var f := [ev] + frame;
    var n := |r.hw.trace| - |h.trace|;
    assert f[..n] == [ev] + frame[..n - 1];
    forall i | 1 <= i < |f| ensures f[i] == frame[i - 1] && |h.trace| + i == |h.trace| + 1 + (i - 1) {
    }
  }

  /** No call at trace positions `from` up to `from + n` fails. */
  ghost predicate Clean<S, G>(plan: Plan<S, G>, from: nat, n: nat)
  {
    forall i :: from <= i < from + n ==> i !in plan.gpio && i !in plan.spi
  }

  /** A fixed program none of whose calls fails issues all its events and returns Ok. */
  lemma FixedClean<S, G>(plan: Plan<S, G>, p: seq<Step>, h: Hw)
    requires Fixed(p) && Clean(plan, |h.trace|, |p|)
    ensures Exec(plan, p, h) == Run(Ok, h.(trace := h.trace + Events(p)))
  {
    ExecFixedIssues(plan, p, h);
    var r := Exec(plan, p, h);
    var n := |r.hw.trace| - |h.trace|;
    if 0 < n {
      assert |h.trace| + n - 1 !in plan.gpio && |h.trace| + n - 1 !in plan.spi;
      assert Raised(plan, Events(p)[n - 1], |h.trace| + n - 1).None?;
    }
    assert Events(p)[..|p|] == Events(p);
  }

  /** The events of two fixed programs run one after the other. */
  lemma EventsAppend(a: seq<Step>, b: seq<Step>)
    requires Fixed(a) && Fixed(b)
    ensures Fixed(a + b) && Events(a + b) == Events(a) + Events(b)
  {
    assert forall i :: 0 <= i < |a + b| ==> (a + b)[i] == if i < |a| then a[i] else b[i - |a|];
    var e, f := Events(a) + Events(b), Events(a + b);
    forall i | 0 <= i < |f| ensures f[i] == e[i] {
      if i < |a| { assert e[i] == Events(a)[i]; } else { assert e[i] == Events(b)[i - |a|]; }
    }
  }

  /** A fixed program issues, until the first failure, any frame equal to its events. */
  lemma ExecIssuesFrame<S, G>(plan: Plan<S, G>, p: seq<Step>, h: Hw, frame: seq<Event>)
    requires Fixed(p) && Events(p) == frame
    ensures IssuesUntilFailure(plan, h, Exec(plan, p, h), frame)
  {
    ExecFixedIssues(plan, p, h);
  }

  lemma StepWritesCons(s: Step, p: seq<Step>)
    ensures StepWrites([s] + p) == (if s.Write? then [s.bytes] else []) + StepWrites(p)
  {
    assert ([s] + p)[1..] == p;
  }

  lemma AppendAssoc<T>(a: seq<T>, b: seq<T>, c: seq<T>)
    ensures a + b + c == a + (b + c)
  {
  }

  lemma {:induction false} StepWritesAppend(a: seq<Step>, b: seq<Step>)
    ensures StepWrites(a + b) == StepWrites(a) + StepWrites(b)
  {
    if a == [] {
      assert a + b == b;
    } else {
      var w0 := if a[0].Write? then [a[0].bytes] else [];
      assert (a + b)[0] == a[0];
      assert (a + b)[1..] == a[1..] + b;
      StepWritesAppend(a[1..], b);
      assert StepWrites(a + b) == w0 + (StepWrites(a[1..]) + StepWrites(b));
      assert w0 + (StepWrites(a[1..]) + StepWrites(b)) == (w0 + StepWrites(a[1..])) + StepWrites(b);
    }
  }
}
