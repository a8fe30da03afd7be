// The event bus (NotchApp/Sources/Core/EventBus/EventBus.swift): the event
// vocabulary shared by the engine and the widgets, MediaInfo's hand-written
// equality, the pass-through subject, and the typed streams that are
// `compactMap` projections of it.
module Events {
  import opened Wrappers

  datatype HUDType = Volume | Brightness | KeyboardBacklight

  datatype PlaybackState = Playing | Paused | Stopped

  datatype NotchState = Idle | Hovering | Expanded

  /** The identity of an image instance (the source compares NSImage references). */
  type ImageId = nat

  /** A UUID. The model issues them from counters, which keeps them unique. */
  type Token = nat

  datatype MediaInfo = MediaInfo(
    title: string,
    artist: string,
    album: string,
    artwork: Option<ImageId>,
    artworkURL: Option<string>,
    duration: real,
    elapsedTime: real,
    appBundleIdentifier: Option<string>)

  /** `MediaInfo ==`: the same title, artist, album and duration. */
  predicate SameMedia(a: MediaInfo, b: MediaInfo)
  {
    a.title == b.title && a.artist == b.artist && a.album == b.album && a.duration == b.duration
  }

  /** MediaInfo's equality does not look at the elapsed time, the artwork, its URL or the player. */
  lemma SameMediaIgnoresPlaybackFields(a: MediaInfo, elapsed: real, art: Option<ImageId>,
                                       url: Option<string>, bundle: Option<string>)
    ensures SameMedia(a, a.(elapsedTime := elapsed, artwork := art, artworkURL := url,
                            appBundleIdentifier := bundle))
  {
  }

  /** MediaInfo's equality is an equivalence relation. */
  lemma SameMediaIsEquivalence(a: MediaInfo, b: MediaInfo, c: MediaInfo)
    ensures SameMedia(a, a)
    ensures SameMedia(a, b) ==> SameMedia(b, a)
    ensures SameMedia(a, b) && SameMedia(b, c) ==> SameMedia(a, c)
  {
  }

  datatype NotchEvent =
    | StateChanged(state: NotchState)
    | MediaChanged(info: MediaInfo)
    | PlaybackStateChanged(playback: PlaybackState)
    | HUDTriggered(hudType: HUDType, value: real)
    | FileDropped(url: string)
    | FileRemoved(id: Token)
    | SettingsChanged(key: string)
    | ScreenChanged

  // ---------------------------------------------------------------------------
  // The subject: everything sent, in order
  // ---------------------------------------------------------------------------

  /**
   * The pass-through subject. `log` is every event sent so far, in send
   * order; a subscriber that subscribed when the log had length `from`
   * receives `Delivered(from)`, nothing older (a PassthroughSubject does not
   * replay).
   */
  class Bus {
    var log: seq<NotchEvent>

    constructor ()
      ensures log == []
    {
      log := [];
    }

    /** `send(_:)`: every current subscriber receives the event, after all earlier ones. */
    method Send(e: NotchEvent)
      modifies this
      ensures log == old(log) + [e]
    {
      log := log + [e];
    }

    /** Subscribing to `publisher`: the subscriber's position in the log. */
    method Subscribe() returns (from: nat)
      ensures from == |log| && Delivered(from) == []
    {
      from := |log|;
    }

    /** What a subscriber that subscribed at position `from` has received. */
    function Delivered(from: nat): seq<NotchEvent>
      reads this
      requires from <= |log|
    {
      log[from..]
    }
  }

  /**
   * After `send(e)`, a subscriber that subscribed at `from` has received
   * exactly `e` beyond what it had before.
   */
  twostate lemma SendDelivers(bus: Bus, e: NotchEvent, from: nat)
    requires from <= |old(bus.log)| && bus.log == old(bus.log) + [e]
    ensures from <= |bus.log| && bus.Delivered(from) == old(bus.Delivered(from)) + [e]
  {
  }

  // ---------------------------------------------------------------------------
  // Typed streams: `on(_:)` is a compactMap over the subject
  // ---------------------------------------------------------------------------

  /** `compactMap(extract)` over the events in `log`. */
  function Project<T>(log: seq<NotchEvent>, extract: NotchEvent -> Option<T>): (r: seq<T>)
    ensures |r| <= |log|
  {
    if log == [] then []
    else
      var last := extract(log[|log| - 1]);
      Project(log[..|log| - 1], extract) + (if last.Some? then [last.value] else [])
  }

  /** A projection of events sent in two batches is the projection of the first followed by the second's. */
  lemma {:induction false} ProjectAppend<T>(a: seq<NotchEvent>, b: seq<NotchEvent>, extract: NotchEvent -> Option<T>)
    ensures Project(a + b, extract) == Project(a, extract) + Project(b, extract)
    decreases |b|
  {
    if b != [] {
      var b' := b[..|b| - 1];
      assert (a + b)[..|a + b| - 1] == a + b';
      ProjectAppend(a, b', extract);
    } else {
      assert a + b == a;
    }
  }

  /** A value is on a projected stream exactly when some event extracts to it. */
  lemma {:induction false} ProjectMember<T>(log: seq<NotchEvent>, extract: NotchEvent -> Option<T>, x: T)
    ensures x in Project(log, extract) <==> exists i :: 0 <= i < |log| && extract(log[i]) == Some(x)
    decreases |log|
  {
    if log != [] {
      var init := log[..|log| - 1];
      ProjectMember(init, extract, x);
      if exists i :: 0 <= i < |log| && extract(log[i]) == Some(x) {
        var i :| 0 <= i < |log| && extract(log[i]) == Some(x);
        if i < |init| {
          assert init[i] == log[i];
        }
      }
      if x in Project(init, extract) {
        var i :| 0 <= i < |init| && extract(init[i]) == Some(x);
        assert log[i] == init[i];
      }
    }
  }

  function ExtractState(e: NotchEvent): Option<NotchState>
  {
    if e.StateChanged? then Some(e.state) else None
  }

  function ExtractMedia(e: NotchEvent): Option<MediaInfo>
  {
    if e.MediaChanged? then Some(e.info) else None
  }

  function ExtractHUD(e: NotchEvent): Option<(HUDType, real)>
  {
    if e.HUDTriggered? then Some((e.hudType, e.value)) else None
  }

  function ExtractPlayback(e: NotchEvent): Option<PlaybackState>
  {
    if e.PlaybackStateChanged? then Some(e.playback) else None
  }

  /** `stateChanges`. */
  function StateChanges(log: seq<NotchEvent>): seq<NotchState>
  {
    Project(log, ExtractState)
  }

  /** `mediaChanges`. */
  function MediaChanges(log: seq<NotchEvent>): seq<MediaInfo>
  {
    Project(log, ExtractMedia)
  }

  /** `hudTriggers`. */
  function HUDTriggers(log: seq<NotchEvent>): seq<(HUDType, real)>
  {
    Project(log, ExtractHUD)
  }

  /** `playbackChanges`. */
  function PlaybackChanges(log: seq<NotchEvent>): seq<PlaybackState>
  {
    Project(log, ExtractPlayback)
  }

  /** `stateChanges` carries exactly the payloads of the `stateChanged` events. */
  lemma StateChangesExact(log: seq<NotchEvent>, s: NotchState)
    ensures s in StateChanges(log) <==> StateChanged(s) in log
  {
    ProjectMember(log, ExtractState, s);
    if StateChanged(s) in log {
      var i :| 0 <= i < |log| && log[i] == StateChanged(s);
      assert ExtractState(log[i]) == Some(s);
    }
  }

  /** `hudTriggers` carries exactly the (type, value) pairs of the `hudTriggered` events. */
  lemma HUDTriggersExact(log: seq<NotchEvent>, t: HUDType, v: real)
    ensures (t, v) in HUDTriggers(log) <==> HUDTriggered(t, v) in log
  {
    ProjectMember(log, ExtractHUD, (t, v));
    if HUDTriggered(t, v) in log {
      var i :| 0 <= i < |log| && log[i] == HUDTriggered(t, v);
      assert ExtractHUD(log[i]) == Some((t, v));
    }
  }

  /** `mediaChanges` carries exactly the payloads of the `mediaChanged` events. */
  lemma MediaChangesExact(log: seq<NotchEvent>, m: MediaInfo)
    ensures m in MediaChanges(log) <==> MediaChanged(m) in log
  {
    ProjectMember(log, ExtractMedia, m);
    if MediaChanged(m) in log {
      var i :| 0 <= i < |log| && log[i] == MediaChanged(m);
      assert ExtractMedia(log[i]) == Some(m);
    }
  }

  /** `playbackChanges` carries exactly the payloads of the `playbackStateChanged` events. */
  lemma PlaybackChangesExact(log: seq<NotchEvent>, p: PlaybackState)
    ensures p in PlaybackChanges(log) <==> PlaybackStateChanged(p) in log
  {
    ProjectMember(log, ExtractPlayback, p);
    if PlaybackStateChanged(p) in log {
      var i :| 0 <= i < |log| && log[i] == PlaybackStateChanged(p);
      assert ExtractPlayback(log[i]) == Some(p);
    }
  }

  /** Sending one event that is not a state change adds nothing to `stateChanges`; sending `stateChanged(s)` appends `s`. */
  lemma StateChangesAfterSend(log: seq<NotchEvent>, e: NotchEvent)
    ensures StateChanges(log + [e]) == StateChanges(log) + (if e.StateChanged? then [e.state] else [])
  {
    assert (log + [e])[..|log + [e]| - 1] == log;
  }
}
