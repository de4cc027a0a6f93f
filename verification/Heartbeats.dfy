/** The timing rules of internal/ws/heartbeat.go as runHeartbeat uses them. Times are nanoseconds. */
module Heartbeats {
  import opened Prelude

  const DEFAULT_PING_INTERVAL := 25_000_000_000
  const DEFAULT_PONG_TIMEOUT := 75_000_000_000
  const MIN_CHECK_PERIOD := 10_000_000

  class Heartbeat {
    const pingInterval: int
    const pongTimeout: int
    var lastPongAt: int

    constructor (now: int, pingInterval: int, pongTimeout: int)
      ensures this.pingInterval == if pingInterval <= 0 then DEFAULT_PING_INTERVAL else pingInterval
      ensures this.pongTimeout == if pongTimeout <= 0 then DEFAULT_PONG_TIMEOUT else pongTimeout
      ensures lastPongAt == now
    {
      this.pingInterval := if pingInterval <= 0 then DEFAULT_PING_INTERVAL else pingInterval;
      this.pongTimeout := if pongTimeout <= 0 then DEFAULT_PONG_TIMEOUT else pongTimeout;
      lastPongAt := now;
    }

    method RecordPong(now: int)
      modifies this
      ensures lastPongAt == now
    {
      lastPongAt := now;
    }

    predicate PingDue(now: int, lastPingAt: int) {
      now - lastPingAt >= pingInterval
    }

    predicate TimedOut(now: int)
      reads this
    {
      now - lastPongAt > pongTimeout
    }

    /** One turn of runHeartbeat's ticker. */
    method CheckOnce(now: int, lastPingAt: int) returns (close: bool, pingAt: int)
      ensures Turn(Rules(pingInterval, pongTimeout, 0), Beat(lastPongAt, lastPingAt, None), Check(now))
              == Beat(lastPongAt, pingAt, if close then Some(now) else None)
    {
      if TimedOut(now) {
        return true, lastPingAt;
      }
      if PingDue(now, lastPingAt) {
        return false, now;
      }
      return false, lastPingAt;
    }
  }

  datatype Rules = Rules(pingInterval: int, pongTimeout: int, tickEvery: int)

  datatype Beat = Beat(lastPong: int, lastPing: int, closedAt: Option<int>)

  datatype Event = Check(at: int) | Pong(at: int)

  function Turn(p: Rules, b: Beat, ev: Event): Beat {
    if b.closedAt.Some? then b
    else
      match ev
      case Pong(t) => b.(lastPong := t)
      case Check(t) =>
        if t - b.lastPong > p.pongTimeout then b.(closedAt := Some(t))
        else if t - b.lastPing >= p.pingInterval then b.(lastPing := t)
        else b
  }

  /** How often runHeartbeat checks. */
  function CheckPeriod(pingInterval: int): int {
    if pingInterval / 4 < MIN_CHECK_PERIOD then MIN_CHECK_PERIOD else pingInterval / 4
  }

  /** A connection over time: owed is the earliest ping sent since the last pong. */
  datatype Timeline = Timeline(beat: Beat, owed: Option<int>, lastCheck: int, now: int)

  function Start(pongAt: int, pingAt: int): Timeline {
    Timeline(Beat(pongAt, pingAt, None), None, pingAt, pingAt)
  }

  function Follow(p: Rules, l: Timeline, ev: Event): Timeline {
    var after := Turn(p, l.beat, ev);
    match ev
    case Pong(t) => Timeline(after, None, l.lastCheck, t)
    case Check(t) =>
      var pinged := after.closedAt.None? && t - l.beat.lastPing >= p.pingInterval;
      Timeline(after, if l.owed.None? && pinged then Some(t) else l.owed, t, t)
  }

  function Watch(p: Rules, start: Timeline, events: seq<Event>): Timeline {
    if events == [] then start else Follow(p, Watch(p, start, events[..|events| - 1]), events[|events| - 1])
  }

  /** Time does not run back, checks are at most tickEvery apart, and no ping goes unanswered for longer than d. */
  ghost predicate Timely(p: Rules, d: int, l: Timeline, ev: Event) {
    && ev.at >= l.now
    && (ev.Check? ==> ev.at - l.lastCheck <= p.tickEvery)
    && (l.owed.Some? ==> ev.at <= l.owed.value + d)
  }

  ghost predicate TimelyAt(p: Rules, d: int, start: Timeline, events: seq<Event>, k: nat)
    requires k < |events|
  {
    Timely(p, d, Watch(p, start, events[..k]), events[k])
  }

  lemma TimelyFront(p: Rules, d: int, start: Timeline, events: seq<Event>, k: nat)
    requires k < |events| - 1 && TimelyAt(p, d, start, events, k)
    ensures TimelyAt(p, d, start, events[..|events| - 1], k)
  {
    assert events[..|events| - 1][..k] == events[..k];
  }

  ghost predicate InTime(p: Rules, lag: int, l: Timeline) {
    && l.beat.closedAt.None?
    && l.lastCheck <= l.now && l.beat.lastPong <= l.now
    && l.beat.lastPing <= l.lastCheck < l.beat.lastPing + p.pingInterval
    && (match l.owed
        case None => l.beat.lastPing <= l.beat.lastPong + lag
        case Some(o) => o <= l.beat.lastPong + lag + p.pingInterval + p.tickEvery && o <= l.beat.lastPing)
  }

  lemma TurnInTime(p: Rules, d: int, lag: int, l: Timeline, ev: Event)
    requires p.pingInterval > 0 && d >= 0 && lag >= 0
    requires p.pingInterval + p.tickEvery + d + lag <= p.pongTimeout
    requires InTime(p, lag, l) && Timely(p, d, l, ev)
    ensures InTime(p, lag, Follow(p, l, ev))
  {
  }

  /**
   If checks come every tickEvery and pings are answered within d, with room for both in pongTimeout, the
   connection is never timed out.
   */
  lemma {:induction false} AnsweringClientIsKept(p: Rules, d: int, pongAt: int, pingAt: int, events: seq<Event>)
    requires p.pingInterval > 0 && d >= 0 && pongAt <= pingAt
    requires p.pingInterval + p.tickEvery + d + (pingAt - pongAt) <= p.pongTimeout
    requires forall k: nat | k < |events| :: TimelyAt(p, d, Start(pongAt, pingAt), events, k)
    ensures Watch(p, Start(pongAt, pingAt), events).beat.closedAt.None?
    ensures InTime(p, pingAt - pongAt, Watch(p, Start(pongAt, pingAt), events))
  {
    if events != [] {
      var front := events[..|events| - 1];
      forall k: nat | k < |front| ensures TimelyAt(p, d, Start(pongAt, pingAt), front, k) {
        TimelyFront(p, d, Start(pongAt, pingAt), events, k);
      }
      AnsweringClientIsKept(p, d, pongAt, pingAt, front);
      assert TimelyAt(p, d, Start(pongAt, pingAt), events, |front|);
      TurnInTime(p, d, pingAt - pongAt, Watch(p, Start(pongAt, pingAt), front), events[|front|]);
    }
  }

  /** The default settings leave a client 43.75 seconds to answer. */
  lemma DefaultsTolerate(d: int, at: int, events: seq<Event>)
    requires 0 <= d <= 43_750_000_000
    requires var p := Rules(DEFAULT_PING_INTERVAL, DEFAULT_PONG_TIMEOUT, CheckPeriod(DEFAULT_PING_INTERVAL));
             forall k: nat | k < |events| :: TimelyAt(p, d, Start(at, at), events, k)
    ensures var p := Rules(DEFAULT_PING_INTERVAL, DEFAULT_PONG_TIMEOUT, CheckPeriod(DEFAULT_PING_INTERVAL));
            Watch(p, Start(at, at), events).beat.closedAt.None?
  {
    var p := Rules(DEFAULT_PING_INTERVAL, DEFAULT_PONG_TIMEOUT, CheckPeriod(DEFAULT_PING_INTERVAL));
    AnsweringClientIsKept(p, d, at, at, events);
  }

  /** The connection is open up to the deadline and closed by the first check after it. */
  ghost predicate ClosedInTime(p: Rules, deadline: int, l: Timeline) {
    && l.beat.lastPong + p.pongTimeout == deadline
    && (l.beat.closedAt.Some? <==> l.lastCheck > deadline)
    && (l.beat.closedAt.Some? ==> deadline < l.beat.closedAt.value <= deadline + p.tickEvery)
  }

  lemma CheckInTime(p: Rules, deadline: int, l: Timeline, at: int)
    requires ClosedInTime(p, deadline, l) && 0 <= at - l.lastCheck <= p.tickEvery
    ensures ClosedInTime(p, deadline, Follow(p, l, Check(at)))
  {
  }

  /** A silent client is closed by the first check after pongTimeout, within tickEvery, and not before. */
  lemma {:induction false} SilentClientIsClosed(p: Rules, start: Timeline, events: seq<Event>)
    requires start.beat.closedAt.None? && start.lastCheck <= start.beat.lastPong + p.pongTimeout
    requires forall k | 0 <= k < |events| :: events[k].Check?
    requires forall k | 0 <= k < |events| ::
               0 <= events[k].at - Watch(p, start, events[..k]).lastCheck <= p.tickEvery
    ensures ClosedInTime(p, start.beat.lastPong + p.pongTimeout, Watch(p, start, events))
    ensures Watch(p, start, events).beat.lastPong == start.beat.lastPong
  {
    if events != [] {
      var front := events[..|events| - 1];
      assert forall k | 0 <= k < |front| :: front[..k] == events[..k] && front[k] == events[k];
      SilentClientIsClosed(p, start, front);
      assert events[..|front|] == front;
      CheckInTime(p, start.beat.lastPong + p.pongTimeout, Watch(p, start, front), events[|front|].at);
    }
  }

  /** With only checks after Pong(t), the client is closed after t + pongTimeout, within one check period. */
  lemma SilentAfterPong(p: Rules, l: Timeline, t: int, events: seq<Event>)
    requires l.beat.closedAt.None? && l.lastCheck <= t + p.pongTimeout
    requires forall k | 0 <= k < |events| :: events[k].Check?
    requires forall k | 0 <= k < |events| ::
               0 <= events[k].at - Watch(p, Follow(p, l, Pong(t)), events[..k]).lastCheck <= p.tickEvery
    ensures var u := Watch(p, Follow(p, l, Pong(t)), events);
            && (u.beat.closedAt.Some? <==> u.lastCheck > t + p.pongTimeout)
            && (u.beat.closedAt.Some? ==> t + p.pongTimeout < u.beat.closedAt.value <= t + p.pongTimeout + p.tickEvery)
  {
    SilentClientIsClosed(p, Follow(p, l, Pong(t)), events);
  }

  /** With the default settings a client silent since Pong(t) is closed within 81.25 seconds, and not before 75. */
  lemma DefaultsClose(l: Timeline, t: int, events: seq<Event>)
    requires l.beat.closedAt.None? && l.lastCheck <= t + 75_000_000_000
    requires forall k | 0 <= k < |events| :: events[k].Check?
    requires var p := Rules(DEFAULT_PING_INTERVAL, DEFAULT_PONG_TIMEOUT, CheckPeriod(DEFAULT_PING_INTERVAL));
             forall k | 0 <= k < |events| ::
               0 <= events[k].at - Watch(p, Follow(p, l, Pong(t)), events[..k]).lastCheck <= p.tickEvery
    ensures var p := Rules(DEFAULT_PING_INTERVAL, DEFAULT_PONG_TIMEOUT, CheckPeriod(DEFAULT_PING_INTERVAL));
            var u := Watch(p, Follow(p, l, Pong(t)), events);
            && (u.lastCheck > t + 75_000_000_000 <==> u.beat.closedAt.Some?)
            && (u.beat.closedAt.Some? ==> t + 75_000_000_000 < u.beat.closedAt.value <= t + 81_250_000_000)
  {
    var p := Rules(DEFAULT_PING_INTERVAL, DEFAULT_PONG_TIMEOUT, CheckPeriod(DEFAULT_PING_INTERVAL));
    SilentAfterPong(p, l, t, events);
  }

  /** Checks come four times per ping interval, but never more often than every 10 milliseconds. */
  lemma CheckPeriodMeaning(pingInterval: int)
    ensures pingInterval >= 40_000_000 ==>
              4 * CheckPeriod(pingInterval) <= pingInterval < 4 * CheckPeriod(pingInterval) + 4
    ensures pingInterval < 40_000_000 ==> CheckPeriod(pingInterval) == 10_000_000
  {
  }
}
