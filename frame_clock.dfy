// The display-synchronised frame clock (NotchApp/Sources/Core/Animation/DisplayLinkManager.swift):
// subscribers keyed by token, a display link that runs while anyone is
// subscribed, and per-frame time deltas computed from host time stamps.
//
// Whether the display link could be created, the host time of each frame, the
// nominal refresh period and the mach timebase arrive as parameters. A
// subscriber's callback is identified by its token; a frame reports the tokens
// whose callbacks it schedules on the main queue.
module FrameClock {
  import opened Text

  type Token = nat

  /** `UInt64.max + 1`: host times and their products must stay below it. */
  const UInt64Bound: nat := 0x1_0000_0000_0000_0000

  /** Nominal frame period used when the display reports none. */
  const DefaultPeriod: real := 1.0 / 60.0

  /**
   * The delta passed to subscribers: on the first frame after a start the
   * display's refresh period (or 1/60 s), otherwise the host-time difference
   * converted to nanoseconds with the timebase, in UInt64 integer arithmetic,
   * then to seconds.
   */
  function FrameDelta(last: nat, host: nat, period: real, numer: nat, denom: nat): (dt: real)
    requires last != 0 ==> last <= host && denom > 0 && (host - last) * numer < UInt64Bound
    ensures last == 0 ==> dt > 0.0
    ensures dt >= 0.0
  {
    if last == 0 then (if period > 0.0 then period else DefaultPeriod)
    else Nanos(host - last, numer, denom) as real / 1_000_000_000.0
  }

  /** Mach ticks converted to nanoseconds: `elapsed * numer / denom`, rounded down. */
  function Nanos(elapsed: nat, numer: nat, denom: nat): nat
    requires denom > 0
  {
    var product: nat := elapsed * numer;
    product / denom
  }

  /** With a one-to-one timebase the delta is the elapsed host time in seconds. */
  lemma UnitTimebaseDelta(last: nat, host: nat, period: real, k: nat)
    requires last != 0 && last <= host && 0 < k && (host - last) * k < UInt64Bound
    ensures FrameDelta(last, host, period, k, k) == (host - last) as real / 1_000_000_000.0
  {
    DivModUnique((host - last) * k, k, host - last, 0);
  }

  // ---------------------------------------------------------------------------
  // The manager as a value
  // ---------------------------------------------------------------------------

  /** Subscribed tokens, whether a display link exists, the last host time, and the next token to issue. */
  datatype Clock = Clock(subscribers: set<Token>, running: bool, lastTimestamp: nat, nextToken: nat)

  const Initial := Clock({}, false, 0, 0)

  /** A running link has a subscriber; a stopped one has no previous time stamp; tokens are issued once. */
  predicate Inv(c: Clock)
  {
    (c.running ==> c.subscribers != {})
    && (!c.running ==> c.lastTimestamp == 0)
    && (forall t :: t in c.subscribers ==> t < c.nextToken)
  }

  /** `start()`: `created` says whether a display link could be created. */
  function StartStep(c: Clock, created: bool): Clock
  {
    if c.running || !created then c else c.(running := true, lastTimestamp := 0)
  }

  /** `stop()`. */
  function StopStep(c: Clock): Clock
  {
    if !c.running then c else c.(running := false, lastTimestamp := 0)
  }

  /** `subscribe(_:)`: the new clock and the token handed out. */
  function SubscribeStep(c: Clock, created: bool): (Clock, Token)
  {
    var id := c.nextToken;
    var added := c.(subscribers := c.subscribers + {id}, nextToken := c.nextToken + 1);
    (if !c.running then StartStep(added, created) else added, id)
  }

  /** `unsubscribe(_:)`. */
  function UnsubscribeStep(c: Clock, id: Token): Clock
  {
    var removed := c.(subscribers := c.subscribers - {id});
    if removed.subscribers == {} then StopStep(removed) else removed
  }

  /** `displayLinkFired(timestamp:)`: the new clock, the delta, and the callbacks scheduled. */
  function FireStep(c: Clock, host: nat, period: real, numer: nat, denom: nat): (Clock, real, set<Token>)
    requires c.lastTimestamp != 0 ==> c.lastTimestamp <= host && denom > 0
                                      && (host - c.lastTimestamp) * numer < UInt64Bound
  {
    (c.(lastTimestamp := host), FrameDelta(c.lastTimestamp, host, period, numer, denom), c.subscribers)
  }

  /** Subscribing hands out a token nobody holds and keeps the invariant. */
  lemma SubscribeKeepsInv(c: Clock, created: bool)
    requires Inv(c)
    ensures var (c', id) := SubscribeStep(c, created);
      Inv(c') && id !in c.subscribers && c'.subscribers == c.subscribers + {id}
      && (c.running || created ==> c'.running)
  {
  }

  /** Unsubscribing keeps the invariant, and removing the last subscriber stops the link. */
  lemma UnsubscribeKeepsInv(c: Clock, id: Token)
    requires Inv(c)
    ensures Inv(UnsubscribeStep(c, id))
    ensures UnsubscribeStep(c, id).subscribers == c.subscribers - {id}
    ensures UnsubscribeStep(c, id).subscribers == {} ==> !UnsubscribeStep(c, id).running
  {
  }

  /**
   * A frame keeps the invariant (host time 0 aside, which the next frame
   * reads as "first frame"), and schedules every current subscriber.
   */
  lemma FireKeepsInv(c: Clock, host: nat, period: real, numer: nat, denom: nat)
    requires Inv(c) && c.running
    requires c.lastTimestamp != 0 ==> c.lastTimestamp <= host && denom > 0
                                      && (host - c.lastTimestamp) * numer < UInt64Bound
    ensures Inv(FireStep(c, host, period, numer, denom).0)
    ensures FireStep(c, host, period, numer, denom).2 == c.subscribers
  {
  }

  /** When the display link can always be created, it runs exactly while someone is subscribed. */
  predicate RunsIffSubscribed(c: Clock)
  {
    c.running <==> c.subscribers != {}
  }

  lemma RunsIffSubscribedKept(c: Clock, id: Token, host: nat, period: real, numer: nat, denom: nat)
    requires Inv(c) && RunsIffSubscribed(c)
    ensures RunsIffSubscribed(SubscribeStep(c, true).0)
    ensures RunsIffSubscribed(UnsubscribeStep(c, id))
    ensures c.running && (c.lastTimestamp != 0 ==> c.lastTimestamp <= host && denom > 0
                                                   && (host - c.lastTimestamp) * numer < UInt64Bound)
            ==> RunsIffSubscribed(FireStep(c, host, period, numer, denom).0)
  {
  }

  /**
   * When the link cannot be created, the subscriber is still registered but
   * nothing runs; the next subscription tries again.
   */
  lemma FailedStartRetries(c: Clock)
    requires Inv(c) && c.subscribers == {} && !c.running
    ensures var (c1, _) := SubscribeStep(c, false);
      !c1.running && c1.subscribers != {}
      && SubscribeStep(c1, true).0.running
  {
  }

  /** The first frame after a (re)start reports the nominal period, not a host-time difference. */
  lemma FirstFrameUsesPeriod(c: Clock, host: nat, period: real, numer: nat, denom: nat)
    requires Inv(c) && !c.running && period > 0.0
    ensures var c1 := StartStep(c, true);
      FireStep(c1, host, period, numer, denom).1 == period
  {
  }

  // ---------------------------------------------------------------------------
  // The manager object
  // ---------------------------------------------------------------------------

  class DisplayLinkManager {
    var subscribers: set<Token>
    /** `displayLink != nil`. */
    var linkRunning: bool
    var lastTimestamp: nat
    /** The next token `subscribe` hands out (standing in for `UUID()`). */
    var nextToken: nat

    function Snapshot(): Clock
      reads this
    {
      Clock(subscribers, linkRunning, lastTimestamp, nextToken)
    }

    constructor ()
      ensures Snapshot() == Initial
    {
      subscribers := {};
      linkRunning := false;
      lastTimestamp := 0;
      nextToken := 0;
    }

    method Start(created: bool)
      modifies this
      ensures Snapshot() == StartStep(old(Snapshot()), created)
    {
      if linkRunning {
        return;
      }
      if !created {
        return;
      }
      lastTimestamp := 0;
      linkRunning := true;
    }

    method Stop()
      modifies this
      ensures Snapshot() == StopStep(old(Snapshot()))
    {
      if !linkRunning {
        return;
      }
      linkRunning := false;
      lastTimestamp := 0;
    }

    method Subscribe(created: bool) returns (id: Token)
      modifies this
      ensures (Snapshot(), id) == SubscribeStep(old(Snapshot()), created)
    {
      id := nextToken;
      nextToken := nextToken + 1;
      subscribers := subscribers + {id};
      var shouldStart := !linkRunning;
      if shouldStart {
        Start(created);
      }
    }

    method Unsubscribe(id: Token)
      modifies this
      ensures Snapshot() == UnsubscribeStep(old(Snapshot()), id)
    {
      subscribers := subscribers - {id};
      var shouldStop := subscribers == {};
      if shouldStop {
        Stop();
      }
    }

    /** A frame: the delta and the subscribers whose callbacks are dispatched to the main queue. */
    method DisplayLinkFired(host: nat, period: real, numer: nat, denom: nat)
      returns (deltaTime: real, callbacks: set<Token>)
      requires linkRunning
      requires lastTimestamp != 0 ==> lastTimestamp <= host && denom > 0
                                      && (host - lastTimestamp) * numer < UInt64Bound
      modifies this
      ensures (Snapshot(), deltaTime, callbacks) == FireStep(old(Snapshot()), host, period, numer, denom)
    {
      if lastTimestamp == 0 {
        deltaTime := if period > 0.0 then period else DefaultPeriod;
      } else {
        var elapsedMach := host - lastTimestamp;
        var elapsedNanos: nat := elapsedMach * numer;
        elapsedNanos := elapsedNanos / denom;
        deltaTime := elapsedNanos as real / 1_000_000_000.0;
      }
      lastTimestamp := host;
      callbacks := subscribers;
    }
  }
}
