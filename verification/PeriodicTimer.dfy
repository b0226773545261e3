module PeriodicTimer {
  /**
   One timer of the system runtime (src/orchestration/system_events.py): it is armed, polled at arbitrary moments,
   and never drifts. Time is real arithmetic; the rounding of the clock's floating point is not modelled.
   */
  import opened Basics

  datatype Spec = Spec(period: real, enabled: bool, next: Option<real>, sequence: nat, fired: nat, skipped: nat)

  /** A number of whole periods. */
  function Span(n: int, period: real): real { n as real * period }

  predicate Due(t: Spec, now: real)
  {
    t.enabled && t.next.Some? && t.next.value <= now
  }

  /** Whole periods from the due moment to the first one after now. */
  function Periods(t: Spec, now: real): int
    requires Due(t, now) && t.period > 0.0
  {
    ((now - t.next.value) / t.period).Floor + 1
  }

  /** One turn of the loop in `poll_due`. */
  function Tick(t: Spec, now: real, busy: bool): Spec
    requires t.period > 0.0
  {
    if !Due(t, now) then t
    else
      t.(sequence := t.sequence + 1,
         skipped := if busy then t.skipped + 1 else t.skipped,
         fired := if busy then t.fired else t.fired + 1,
         next := Some(t.next.value + Span(Periods(t, now), t.period)))
  }

  function Arm(t: Spec, now: real): Spec
  {
    t.(next := if t.enabled then Some(now + t.period) else None)
  }

  // ---------------------------------------------------------------- arithmetic of periods

  lemma DivideMultiply(x: real, period: real)
    requires period > 0.0
    ensures (x / period) * period == x
  {
  }

  lemma FloorBounds(x: real, period: real)
    requires x >= 0.0 && period > 0.0
    ensures var n := (x / period).Floor; n >= 0 && Span(n, period) <= x < Span(n + 1, period)
  {
    var q := x / period;
    DivideMultiply(x, period);
    var n := q.Floor;
    var low, high := n as real, (n + 1) as real;
    assert low <= q < low + 1.0 == high;
    Scale(low, q, period);
    ScaleStrict(q, high, period);
    if q < 0.0 { ScaleStrict(q, 0.0, period); }
  }

  lemma SpanAdds(a: int, b: int, period: real)
    ensures Span(a + b, period) == Span(a, period) + Span(b, period) && Span(1, period) == period
  {
    var x, y := a as real, b as real;
    assert (a + b) as real == x + y;
    assert (x + y) * period == x * period + y * period;
  }

  lemma Scale(a: real, b: real, p: real)
    requires a <= b && p > 0.0
    ensures a * p <= b * p
  {
  }

  lemma ScaleStrict(a: real, b: real, p: real)
    requires a < b && p > 0.0
    ensures a * p < b * p
  {
  }

  lemma Unscale(n: int, period: real, x: real)
    requires period > 0.0 && x >= 0.0 && Span(n, period) <= x
    ensures n <= (x / period).Floor
  {
    FloorBounds(x, period);
    var m := (x / period).Floor;
    if n > m {
      Scale((m + 1) as real, n as real, period);
    }
  }

  // ---------------------------------------------------------------- one poll

  /** A due poll moves the timer by whole periods to the first moment after now; any other poll changes nothing. */
  lemma TickAdvances(t: Spec, now: real, busy: bool)
    requires t.period > 0.0
    ensures !Due(t, now) ==> Tick(t, now, busy) == t
    ensures Due(t, now) ==> Periods(t, now) >= 1
    ensures Due(t, now) ==> var n := Tick(t, now, busy).next; n.Some? && now < n.value <= now + t.period
  {
    if Due(t, now) {
      FloorBounds(now - t.next.value, t.period);
      var n := ((now - t.next.value) / t.period).Floor;
      SpanAdds(n, 1, t.period);
    }
  }

  /** A poll that comes within one period of the due moment advances by exactly one period. */
  lemma PromptTick(t: Spec, now: real, busy: bool)
    requires t.period > 0.0 && Due(t, now) && now < t.next.value + t.period
    ensures Tick(t, now, busy).next == Some(t.next.value + t.period)
  {
    var x := now - t.next.value;
    FloorBounds(x, t.period);
    SpanAdds(0, 1, t.period);
    SpanOrder((x / t.period).Floor, 1, t.period);
    assert Periods(t, now) == 1;
  }

  lemma SpanOrder(a: int, b: int, period: real)
    requires period > 0.0
    ensures Span(a, period) < Span(b, period) ==> a < b
  {
    if a >= b { Scale(b as real, a as real, period); }
  }

  // ---------------------------------------------------------------- every run of polls

  datatype Poll = Poll(now: real, busy: bool)

  function Polled(t: Spec, polls: seq<Poll>): Spec
    requires t.period > 0.0
    ensures Polled(t, polls).period == t.period
  {
    if polls == [] then t
    else
      var n := |polls| - 1;
      Tick(Polled(t, polls[..n]), polls[n].now, polls[n].busy)
  }

  /** No poll is later than this. */
  predicate Until(polls: seq<Poll>, latest: real)
  {
    forall i | 0 <= i < |polls| :: polls[i].now <= latest
  }

  /** Since arming at `armed`, with `j` periods gone by: where the next tick is, and how many there were. */
  predicate OnGrid(t: Spec, first: Spec, armed: real, j: int, latest: real)
  {
    && j >= 1 && t.enabled && t.next == Some(armed + Span(j, t.period)) && t.period == first.period
    && first.sequence <= t.sequence <= first.sequence + (j - 1)
    && Span(j - 1, t.period) <= latest - armed
  }

  lemma GridStep(t: Spec, first: Spec, armed: real, j: int, latest: real, p: Poll) returns (k: int)
    requires t.period > 0.0 && OnGrid(t, first, armed, j, latest) && p.now <= latest
    ensures OnGrid(Tick(t, p.now, p.busy), first, armed, k, latest)
  {
    k := j;
    if Due(t, p.now) {
      TickAdvances(t, p.now, p.busy);
      k := j + Periods(t, p.now);
      SpanAdds(j, Periods(t, p.now), t.period);
      SpanAdds(k - 1, 1, t.period);
    }
  }

  lemma {:induction false} PolledOnGrid(first: Spec, armed: real, latest: real, polls: seq<Poll>) returns (j: int)
    requires first.period > 0.0 && first.enabled && first.next == Some(armed + first.period) && armed <= latest && Until(polls, latest)
    ensures OnGrid(Polled(first, polls), first, armed, j, latest)
  {
    if polls == [] {
      j := 1;
      SpanAdds(0, 1, first.period);
    } else {
      var n := |polls| - 1;
      var i := PolledOnGrid(first, armed, latest, polls[..n]);
      j := GridStep(Polled(first, polls[..n]), first, armed, i, latest, polls[n]);
    }
  }

  /**
   After arming, whatever the moments of the polls: the next tick is a whole number of periods after the arming,
   and there were at most as many ticks as whole periods have passed. Late polls coalesce; they never add up.
   */
  lemma NeverDrifts(t: Spec, armed: real, latest: real, polls: seq<Poll>)
    requires t.period > 0.0 && t.enabled && armed <= latest && Until(polls, latest)
    ensures var first := Arm(t, armed); var last := Polled(first, polls);
      && last.next.Some? && (exists j: int :: j >= 1 && last.next.value == armed + Span(j, t.period))
      && last.sequence - t.sequence <= ((latest - armed) / t.period).Floor
  {
    var first := Arm(t, armed);
    var j := PolledOnGrid(first, armed, latest, polls);
    Unscale(j - 1, t.period, latest - armed);
  }

  /** Each tick was either emitted or skipped. */
  predicate Counted(t: Spec) { t.sequence == t.fired + t.skipped }

  lemma {:induction false} TicksCounted(t: Spec, polls: seq<Poll>)
    requires t.period > 0.0 && Counted(t)
    ensures Counted(Polled(t, polls))
  {
    if polls != [] {
      TicksCounted(t, polls[..|polls| - 1]);
    }
  }

  /** How many of the polls were due and not busy: the events handed out. */
  function Emitted(t: Spec, polls: seq<Poll>): nat
    requires t.period > 0.0
  {
    if polls == [] then 0
    else
      var n := |polls| - 1;
      Emitted(t, polls[..n]) + if Due(Polled(t, polls[..n]), polls[n].now) && !polls[n].busy then 1 else 0
  }

  lemma {:induction false} EmittedIsFired(t: Spec, polls: seq<Poll>)
    requires t.period > 0.0
    ensures Polled(t, polls).fired == t.fired + Emitted(t, polls)
  {
    if polls != [] {
      EmittedIsFired(t, polls[..|polls| - 1]);
    }
  }

  /** The events of a run of polls never outnumber the periods gone by. */
  lemma EmittedAtMostElapsed(t: Spec, armed: real, latest: real, polls: seq<Poll>)
    requires t.period > 0.0 && t.enabled && armed <= latest && Until(polls, latest) && Counted(t)
    ensures Emitted(Arm(t, armed), polls) <= ((latest - armed) / t.period).Floor
  {
    NeverDrifts(t, armed, latest, polls);
    TicksCounted(Arm(t, armed), polls);
    EmittedIsFired(Arm(t, armed), polls);
    SkippedGrows(Arm(t, armed), polls);
  }

  lemma {:induction false} SkippedGrows(t: Spec, polls: seq<Poll>)
    requires t.period > 0.0
    ensures Polled(t, polls).skipped >= t.skipped
  {
    if polls != [] { SkippedGrows(t, polls[..|polls| - 1]); }
  }
}
