/**
 Heartbeat timing.  A run is the order in which inbound messages touch the activity timestamp, the ticker
 fires and the cancellation comes; ticks are punctual and sends do not block, so a tick pings and checks at
 one instant.
 */
module Heartbeat {
  import opened Wrappers

  /** `open` says whether the write channel still takes the PING. */
  datatype Entry = Touch(at: nat) | Tick(at: nat, open: bool) | Cancel(at: nat)

  /** Times never run backwards, from `start` to `end`. */
  predicate Ordered(run: seq<Entry>, start: nat, end: nat)
    decreases |run|
  {
    if run == [] then start <= end else start <= run[0].at && Ordered(run[1..], run[0].at, end)
  }

  /** The ticks are at `next`, `next + interval`, `next + 2 * interval`, ... */
  predicate Punctual(run: seq<Entry>, next: nat, interval: nat)
    decreases |run|
  {
    if run == [] then true
    else if !run[0].Tick? then Punctual(run[1..], next, interval)
    else run[0].at == next && Punctual(run[1..], next + interval, interval)
  }

  /** What became of the task: it declared a timeout, stopped without one, or still beats. */
  datatype Outcome = TimedOut(at: nat) | Stopped | StillBeating

  /** The first entry that ends the task, given the timestamp it starts from: a tick that finds the channel
      closed or the silence too long, or the cancellation. */
  function OutcomeOf(last: nat, timeout: nat, run: seq<Entry>): Outcome
    decreases |run|
  {
    if run == [] then StillBeating else
    match run[0]
    case Touch(at) => OutcomeOf(at, timeout, run[1..])
    case Cancel(_) => Stopped
    case Tick(at, open) =>
      if !open then Stopped else if at > last + timeout then TimedOut(at) else OutcomeOf(last, timeout, run[1..])
  }

  /** The PINGs sent until then: one at every tick that finds the channel open. */
  function Pings(last: nat, timeout: nat, run: seq<Entry>): nat
    decreases |run|
  {
    if run == [] then 0 else
    match run[0]
    case Touch(at) => Pings(at, timeout, run[1..])
    case Cancel(_) => 0
    case Tick(at, open) =>
      if !open then 0 else if at > last + timeout then 1 else 1 + Pings(last, timeout, run[1..])
  }

  function TicksIn(run: seq<Entry>): nat
    decreases |run|
  {
    if run == [] then 0 else (if run[0].Tick? then 1 else 0) + TicksIn(run[1..])
  }

  /** A task that still beats has sent a PING at every tick, one that timed out at most that many and at least one. */
  lemma {:induction false} OnePingATick(last: nat, timeout: nat, run: seq<Entry>)
    ensures OutcomeOf(last, timeout, run).StillBeating? ==> Pings(last, timeout, run) == TicksIn(run)
    ensures OutcomeOf(last, timeout, run).TimedOut? ==> 1 <= Pings(last, timeout, run) <= TicksIn(run)
    decreases |run|
  {
    if run != [] {
      OnePingATick(if run[0].Touch? then run[0].at else last, timeout, run[1..]);
    }
  }

  // ── The task ─────────────────────────────────────────────────

  /** What the reader and the heartbeat task share. */
  class Shared {
    var lastActivity: nat
    var alive: bool
    var pings: nat

    constructor (now: nat)
      ensures lastActivity == now && alive && pings == 0
    {
      lastActivity, alive, pings := now, true, 0;
    }

    /** `touch`, on every inbound message. */
    method Touch(now: nat)
      modifies this`lastActivity
      ensures lastActivity == now
    {
      lastActivity := now;
    }

    /** One round of the heartbeat loop: PING, then the liveness check; a closed channel ends it first. */
    method Beat(now: nat, timeout: nat, open: bool) returns (outcome: Outcome)
      modifies this`alive, this`pings
      ensures outcome == if !open then Stopped else if now > lastActivity + timeout then TimedOut(now) else StillBeating
      ensures alive == (old(alive) && !outcome.TimedOut?)
      ensures pings == old(pings) + (if open then 1 else 0)
    {
      if !open {
        return Stopped;
      }
      pings := pings + 1;
      var elapsed := if now > lastActivity then now - lastActivity else 0;
      if elapsed > timeout {
        alive := false;
        return TimedOut(now);
      }
      outcome := StillBeating;
    }
  }

  /** The loop of the heartbeat task over a run. */
  method HeartbeatLoop(shared: Shared, timeout: nat, run: seq<Entry>) returns (outcome: Outcome)
    modifies shared
    ensures outcome == OutcomeOf(old(shared.lastActivity), timeout, run)
    ensures shared.alive == (old(shared.alive) && !outcome.TimedOut?)
    ensures shared.pings == old(shared.pings) + Pings(old(shared.lastActivity), timeout, run)
  {
    for i := 0 to |run|
      invariant OutcomeOf(shared.lastActivity, timeout, run[i..]) == OutcomeOf(old(shared.lastActivity), timeout, run)
      invariant shared.alive == old(shared.alive)
      invariant
        shared.pings + Pings(shared.lastActivity, timeout, run[i..])
        == old(shared.pings) + Pings(old(shared.lastActivity), timeout, run)
    {
      match run[i] {
        case Touch(at) => shared.Touch(at);
        case Cancel(_) => return Stopped;
        case Tick(at, open) =>
          outcome := shared.Beat(at, timeout, open);
          if !outcome.StillBeating? {
            return;
          }
      }
    }
    outcome := StillBeating;
  }

  /** A task that still beats stops at its cancellation, and at a tick that finds the write channel closed, without a
      further PING. */
  lemma {:induction false} CancelledStops(last: nat, timeout: nat, run: seq<Entry>, end: Entry, rest: seq<Entry>)
    requires OutcomeOf(last, timeout, run).StillBeating? && (end.Cancel? || (end.Tick? && !end.open))
    ensures OutcomeOf(last, timeout, run + [end] + rest) == Stopped
    ensures Pings(last, timeout, run + [end] + rest) == Pings(last, timeout, run)
    decreases |run|
  {
    var all := run + [end] + rest;
    if run != [] {
      assert all[1..] == run[1..] + [end] + rest;
      CancelledStops(if run[0].Touch? then run[0].at else last, timeout, run[1..], end, rest);
    }
  }

  // ── No false alarm ───────────────────────────────────────────

  /** Every gap between touches, and from the last one to `end`, is at most `timeout`. */
  predicate GapsWithin(last: nat, timeout: nat, run: seq<Entry>, end: nat)
    decreases |run|
  {
    if run == [] then end <= last + timeout
    else if run[0].Touch? then run[0].at <= last + timeout && GapsWithin(run[0].at, timeout, run[1..], end)
    else GapsWithin(last, timeout, run[1..], end)
  }

  lemma {:induction false} NowWithinGap(now: nat, last: nat, timeout: nat, run: seq<Entry>, end: nat)
    requires Ordered(run, now, end) && GapsWithin(last, timeout, run, end)
    ensures now <= last + timeout
    decreases |run|
  {
    if run != [] && !run[0].Touch? {
      NowWithinGap(run[0].at, last, timeout, run[1..], end);
    }
  }

  /** If inbound gaps stay at or below the timeout, the task never declares one. */
  lemma {:induction false} NoFalseAlarm(start: nat, last: nat, timeout: nat, run: seq<Entry>, end: nat)
    requires Ordered(run, start, end) && GapsWithin(last, timeout, run, end)
    ensures !OutcomeOf(last, timeout, run).TimedOut?
    decreases |run|
  {
    if run != [] {
      if run[0].Touch? {
        NoFalseAlarm(run[0].at, run[0].at, timeout, run[1..], end);
      } else {
        NowWithinGap(run[0].at, last, timeout, run[1..], end);
        NoFalseAlarm(run[0].at, last, timeout, run[1..], end);
      }
    }
  }

  // ── No missed silence ────────────────────────────────────────

  function Ticks(next: nat, interval: nat, n: nat): seq<Entry>
    decreases n
  {
    if n == 0 then [] else [Tick(next, true)] + Ticks(next + interval, interval, n - 1)
  }

  /** The tick that follows the ones in `run`. */
  function NextTick(run: seq<Entry>, next: nat, interval: nat): nat
    decreases |run|
  {
    if run == [] then next else NextTick(run[1..], if run[0].Tick? then next + interval else next, interval)
  }

  lemma {:induction false} SilenceIsDeclared(s: nat, timeout: nat, next: nat, interval: nat, n: nat)
    requires interval > 0 && next <= s + timeout + interval && next + n * interval > s + timeout + interval
    ensures
      var outcome := OutcomeOf(s, timeout, Ticks(next, interval, n));
      outcome.TimedOut? && s + timeout < outcome.at <= s + timeout + interval
    decreases n
  {
    var run := Ticks(next, interval, n);
    assert n > 0;
    assert run[0] == Tick(next, true) && run[1..] == Ticks(next + interval, interval, n - 1);
    if next <= s + timeout {
      assert next + interval + (n - 1) * interval == next + n * interval;
      SilenceIsDeclared(s, timeout, next + interval, interval, n - 1);
    }
  }

  /** At a touch, the next tick is at most one interval away. */
  lemma {:induction false} NextTickIsNear(run: seq<Entry>, start: nat, next: nat, interval: nat, s: nat)
    requires Ordered(run, start, s) && Punctual(run, next, interval) && next <= start + interval
    ensures NextTick(run, next, interval) <= s + interval
    decreases |run|
  {
    if run != [] {
      NextTickIsNear(run[1..], run[0].at, if run[0].Tick? then next + interval else next, interval, s);
    }
  }

  lemma {:induction false} QuietPrefix(last: nat, timeout: nat, run: seq<Entry>, s: nat, rest: seq<Entry>)
    requires OutcomeOf(last, timeout, run).StillBeating?
    ensures OutcomeOf(last, timeout, run + [Touch(s)] + rest) == OutcomeOf(s, timeout, rest)
    decreases |run|
  {
    var all := run + [Touch(s)] + rest;
    if run == [] {
      assert all[1..] == rest;
    } else {
      assert all[1..] == run[1..] + [Touch(s)] + rest;
      QuietPrefix(if run[0].Touch? then run[0].at else last, timeout, run[1..], s, rest);
    }
  }

  /** After a last inbound message at `s`, not before the task started at `start`, a task that is neither
      cancelled nor cut off declares the timeout at an elapsed time above `timeout` and at most
      `timeout + interval`. */
  lemma SilenceIsDeclaredInTime(
      start: nat, last: nat, timeout: nat, interval: nat, run: seq<Entry>, s: nat, n: nat)
    requires interval > 0
    requires Ordered(run, start, s) && Punctual(run, start + interval, interval)
    requires OutcomeOf(last, timeout, run).StillBeating?
    requires NextTick(run, start + interval, interval) + n * interval > s + timeout + interval
    ensures
      var silent := Ticks(NextTick(run, start + interval, interval), interval, n);
      var outcome := OutcomeOf(last, timeout, run + [Touch(s)] + silent);
      outcome.TimedOut? && s + timeout < outcome.at <= s + timeout + interval
  {
    var next := NextTick(run, start + interval, interval);
    NextTickIsNear(run, start, start + interval, interval, s);
    SilenceIsDeclared(s, timeout, next, interval, n);
    QuietPrefix(last, timeout, run, s, Ticks(next, interval, n));
  }
}
