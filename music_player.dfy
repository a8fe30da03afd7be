// The music widget's view-model (NotchApp/Sources/Widgets/MusicPlayer/MusicPlayerViewModel.swift):
// the current track and its progress strings, estimated between fetches from
// the time elapsed since the last one, a short track-change notification, and
// a frame-clock subscription held while music plays.
//
// `Date()` is the parameter `now` (seconds since the reference date); the
// media bridge's current values and the panel's state are read from the
// objects or values passed in; whether the display link can be created is the
// parameter `created` handed to the frame clock. The three-second hide task of
// the notification is a count of pending hides fired explicitly.
module MusicPlayer {
  import opened Wrappers
  import opened Text
  import opened ClockFace
  import opened Events
  import FrameClock
  import Panel

  /** `Date.distantPast`, the fetch time before any track was seen. */
  const DistantPast: real := -63114076800.0

  // ---------------------------------------------------------------------------
  // Formatting and progress
  // ---------------------------------------------------------------------------

  /** `formatTime(_:)`: "M:SS" of the whole seconds, in Swift's truncating arithmetic. */
  function FormatTime(seconds: real): string
  {
    IntToString(Quot(Trunc(seconds), 60)) + ":" + Pad2(Rem(Trunc(seconds), 60))
  }

  /** For a non-negative time the string has two fields, two-digit seconds, and reads back as `Int(seconds)`. */
  lemma FormatTimeReadsBack(seconds: real)
    requires seconds >= 0.0
    ensures |Split(FormatTime(seconds), ":")| == 2 && |Split(FormatTime(seconds), ":")[1]| == 2
    ensures ReadClock(FormatTime(seconds)) == Some(Trunc(seconds))
  {
    var t := Trunc(seconds);
    ReadTwo(IntToString(t / 60), Pad2(t % 60));
  }

  /** The published progress fields. */
  datatype ProgressView = ProgressView(progress: real, elapsedFormatted: string, remainingFormatted: string)

  const NoProgress := ProgressView(0.0, "0:00", "0:00")

  /** The elapsed time estimated from the last fetch, capped at the duration. */
  function EstimatedElapsed(info: MediaInfo, isPlaying: bool, lastElapsed: real, lastFetchTime: real, now: real): (e: real)
    ensures e <= info.duration
    ensures lastElapsed >= 0.0 && now >= lastFetchTime && info.duration >= 0.0 ==> e >= 0.0
  {
    var current := lastElapsed + (if isPlaying then now - lastFetchTime else 0.0);
    if current <= info.duration then current else info.duration
  }

  /** The view of a track of duration `d` at elapsed time `e`. */
  function ViewAt(e: real, d: real): ProgressView
    requires d > 0.0
  {
    ProgressView(e / d, FormatTime(e), Signed(d - e))
  }

  /** `updateProgress()`. */
  function Progress(nowPlaying: Option<MediaInfo>, isPlaying: bool, lastElapsed: real, lastFetchTime: real,
                    now: real): ProgressView
  {
    if nowPlaying.None? || nowPlaying.value.duration <= 0.0 then NoProgress
    else ViewAt(EstimatedElapsed(nowPlaying.value, isPlaying, lastElapsed, lastFetchTime, now), nowPlaying.value.duration)
  }

  /** A part of a positive whole is at most the whole. */
  lemma FractionAtMostOne(x: real, d: real)
    requires d > 0.0 && x <= d
    ensures x / d <= 1.0
    ensures x >= 0.0 ==> x / d >= 0.0
  {
    var q := x / d;
    assert q * d == x;
    assert (1.0 - q) * d == d - x;
  }

  /**
   * The whole seconds of two non-negative parts add up to those of the whole,
   * or one less: elapsed and remaining faces account for the duration.
   */
  lemma TruncOfParts(e: real, d: real)
    requires 0.0 <= e <= d
    ensures Trunc(d) - 1 <= Trunc(e) + Trunc(d - e) <= Trunc(d)
  {
  }

  /** A time left to run, shown with a minus sign. */
  function Signed(x: real): string
  {
    "-" + FormatTime(x)
  }

  /** A signed face: a minus sign, then a clock face of the whole seconds of `x`. */
  lemma SignedFace(x: real)
    requires x >= 0.0
    ensures |Signed(x)| > 0 && Signed(x)[0] == '-' && ReadClock(Signed(x)[1..]) == Some(Trunc(x))
  {
    var f := FormatTime(x);
    FormatTimeReadsBack(x);
    assert Signed(x)[1..] == f;
  }

  /** Within a track the progress is a fraction. */
  lemma ViewAtProgress(e: real, d: real)
    requires 0.0 <= e <= d && d > 0.0
    ensures 0.0 <= ViewAt(e, d).progress <= 1.0
  {
    FractionAtMostOne(e, d);
  }

  /** The elapsed string reads back as the elapsed whole seconds. */
  lemma ViewAtElapsed(e: real, d: real)
    requires 0.0 <= e <= d && d > 0.0
    ensures ReadClock(ViewAt(e, d).elapsedFormatted) == Some(Trunc(e))
  {
    FormatTimeReadsBack(e);
    assert ViewAt(e, d).elapsedFormatted == FormatTime(e);
  }

    /**
   * With no track or no positive duration the view shows 0 and "0:00" twice.
   * Otherwise the progress is at most 1, and for a clock that does not run
   * backwards the view is that of the estimated elapsed time, which lies
   * within the track.
   */
  lemma ProgressSpec(nowPlaying: Option<MediaInfo>, isPlaying: bool, lastElapsed: real, lastFetchTime: real,
                     now: real)
    ensures nowPlaying.None? || nowPlaying.value.duration <= 0.0 ==>
              Progress(nowPlaying, isPlaying, lastElapsed, lastFetchTime, now) == NoProgress
    ensures Progress(nowPlaying, isPlaying, lastElapsed, lastFetchTime, now).progress <= 1.0
    ensures nowPlaying.Some? && nowPlaying.value.duration > 0.0 && lastElapsed >= 0.0 && now >= lastFetchTime ==>
              var e := EstimatedElapsed(nowPlaying.value, isPlaying, lastElapsed, lastFetchTime, now);
              0.0 <= e <= nowPlaying.value.duration
              && Progress(nowPlaying, isPlaying, lastElapsed, lastFetchTime, now) == ViewAt(e, nowPlaying.value.duration)
  {
    if nowPlaying.Some? && nowPlaying.value.duration > 0.0 {
      var e := EstimatedElapsed(nowPlaying.value, isPlaying, lastElapsed, lastFetchTime, now);
      FractionAtMostOne(e, nowPlaying.value.duration);
    }
  }

  // ---------------------------------------------------------------------------
  // Track changes
  // ---------------------------------------------------------------------------

  /** Whether `updateNowPlaying` shows the track-change notification. */
  predicate AnnouncesTrackChange(previousTitle: Option<string>, info: MediaInfo, panelState: NotchState)
  {
    previousTitle.Some? && previousTitle.value != info.title && info.title != "" && panelState != Expanded
  }

  /**
   * The notification needs all four conditions: a previous track, a new
   * title, a non-empty one, and a panel that is not expanded.
   */
  lemma AnnouncesExactly(previousTitle: Option<string>, info: MediaInfo, panelState: NotchState)
    ensures previousTitle.None? ==> !AnnouncesTrackChange(previousTitle, info, panelState)
    ensures previousTitle == Some(info.title) ==> !AnnouncesTrackChange(previousTitle, info, panelState)
    ensures info.title == "" ==> !AnnouncesTrackChange(previousTitle, info, panelState)
    ensures panelState == Expanded ==> !AnnouncesTrackChange(previousTitle, info, panelState)
    ensures previousTitle.Some? && previousTitle.value != info.title && |info.title| > 0 && panelState != Expanded
            ==> AnnouncesTrackChange(previousTitle, info, panelState)
  {
  }

  /** The view-model's own fields, with the three progress fields as one view; the frame clock is a separate object. */
  datatype Player = Player(nowPlaying: Option<MediaInfo>, isPlaying: bool, currentArtwork: Option<ImageId>,
                           view: ProgressView, showTrackChangeNotification: bool, trackChangeInfo: Option<MediaInfo>,
                           observing: bool, displayLinkSubscription: Option<FrameClock.Token>,
                           lastElapsed: real, lastFetchTime: real, pendingHides: nat)

  /** The title `updateNowPlaying` remembers as the previous track. */
  function PreviousTitle(nowPlaying: Option<MediaInfo>): Option<string>
  {
    if nowPlaying.Some? then Some(nowPlaying.value.title) else None
  }

  /** `updateNowPlaying(_:)` at `now`, with the panel in `panelState`. */
  function NowPlayingStep(p: Player, info: MediaInfo, now: real, panelState: NotchState): Player
  {
    var q := p.(nowPlaying := Some(info), lastElapsed := info.elapsedTime, lastFetchTime := now,
                view := Progress(Some(info), p.isPlaying, info.elapsedTime, now, now));
    if AnnouncesTrackChange(PreviousTitle(p.nowPlaying), info, panelState) then
      q.(showTrackChangeNotification := true, trackChangeInfo := Some(info), pendingHides := p.pendingHides + 1)
    else q
  }

  /**
   * Right after an update the view shows the fetched position (capped at the
   * duration), whether or not music is playing.
   */
  lemma NowPlayingShowsFetchedPosition(p: Player, info: MediaInfo, now: real, panelState: NotchState)
    requires info.duration > 0.0
    ensures NowPlayingStep(p, info, now, panelState).view
            == ViewAt(if info.elapsedTime <= info.duration then info.elapsedTime else info.duration, info.duration)
  {
    assert EstimatedElapsed(info, p.isPlaying, info.elapsedTime, now, now)
           == (if info.elapsedTime <= info.duration then info.elapsedTime else info.duration);
  }

  /**
   * The same track reported again (a new position, say) never shows the
   * notification again: only a change of title is announced.
   */
  lemma SameTrackAnnouncedOnce(p: Player, info: MediaInfo, now: real, later: real, ps: NotchState, ps': NotchState)
    ensures var q := NowPlayingStep(p, info, now, ps);
            var r := NowPlayingStep(q, info, later, ps');
            r.showTrackChangeNotification == q.showTrackChangeNotification
            && r.trackChangeInfo == q.trackChangeInfo && r.pendingHides == q.pendingHides
  {
    var q := NowPlayingStep(p, info, now, ps);
    assert PreviousTitle(q.nowPlaying) == Some(info.title);
    AnnouncesExactly(PreviousTitle(q.nowPlaying), info, ps');
  }

  // ---------------------------------------------------------------------------
  // The view-model object
  // ---------------------------------------------------------------------------

  class MusicPlayerViewModel {
    var nowPlaying: Option<MediaInfo>
    var isPlaying: bool
    var currentArtwork: Option<ImageId>
    var progress: real
    var elapsedFormatted: string
    var remainingFormatted: string
    var showTrackChangeNotification: bool
    var trackChangeInfo: Option<MediaInfo>
    /** The three sinks stored in `cancellables` are live. */
    var observing: bool
    var displayLinkSubscription: Option<FrameClock.Token>
    var lastElapsed: real
    var lastFetchTime: real
    /** Hide tasks started by track-change notifications and not yet run. */
    var pendingHides: nat
    /** The shared frame clock. */
    const clock: FrameClock.DisplayLinkManager

    /** A held subscription is one of the clock's, and the clock keeps its own invariant. */
    ghost predicate Valid()
      reads this, clock
    {
      FrameClock.Inv(clock.Snapshot())
      && (displayLinkSubscription.Some? ==> displayLinkSubscription.value in clock.subscribers)
    }

    /** While observing the frame subscription is held exactly while playing; otherwise none is held. */
    ghost predicate Synced()
      reads this
    {
      (observing ==> (displayLinkSubscription.Some? <==> isPlaying))
      && (!observing ==> displayLinkSubscription.None?)
    }

    function View(): ProgressView
      reads this
    {
      ProgressView(progress, elapsedFormatted, remainingFormatted)
    }

    function Snapshot(): Player
      reads this
    {
      Player(nowPlaying, isPlaying, currentArtwork, View(), showTrackChangeNotification, trackChangeInfo,
             observing, displayLinkSubscription, lastElapsed, lastFetchTime, pendingHides)
    }

    constructor (clock: FrameClock.DisplayLinkManager)
      requires FrameClock.Inv(clock.Snapshot())
      ensures Valid() && Synced() && this.clock == clock
      ensures nowPlaying.None? && !isPlaying && View() == NoProgress && !showTrackChangeNotification
      ensures !observing && lastFetchTime == DistantPast
    {
      nowPlaying := None;
      isPlaying := false;
      currentArtwork := None;
      progress := 0.0;
      elapsedFormatted := "0:00";
      remainingFormatted := "0:00";
      showTrackChangeNotification := false;
      trackChangeInfo := None;
      observing := false;
      displayLinkSubscription := None;
      lastElapsed := 0.0;
      lastFetchTime := DistantPast;
      pendingHides := 0;
      this.clock := clock;
    }

    /** `updateProgress()`, at time `now`. */
    method UpdateProgress(now: real)
      modifies this
      ensures View() == Progress(nowPlaying, isPlaying, lastElapsed, lastFetchTime, now)
      ensures nowPlaying == old(nowPlaying) && isPlaying == old(isPlaying) && observing == old(observing)
      ensures displayLinkSubscription == old(displayLinkSubscription)
      ensures lastElapsed == old(lastElapsed) && lastFetchTime == old(lastFetchTime)
      ensures showTrackChangeNotification == old(showTrackChangeNotification)
      ensures trackChangeInfo == old(trackChangeInfo) && pendingHides == old(pendingHides)
      ensures currentArtwork == old(currentArtwork)
    {
      if nowPlaying.None? || nowPlaying.value.duration <= 0.0 {
        progress := 0.0;
        elapsedFormatted := "0:00";
        remainingFormatted := "0:00";
        return;
      }
      var info := nowPlaying.value;
      var currentElapsed := lastElapsed;
      if isPlaying {
        currentElapsed := currentElapsed + (now - lastFetchTime);
      }
      if info.duration < currentElapsed {
        currentElapsed := info.duration;
      }
      assert currentElapsed == EstimatedElapsed(info, isPlaying, lastElapsed, lastFetchTime, now);
      var view := ViewAt(currentElapsed, info.duration);
      progress := view.progress;
      elapsedFormatted := view.elapsedFormatted;
      remainingFormatted := view.remainingFormatted;
    }

    /** `updateNowPlaying(_:)`, at time `now`, with the panel in the state it is in. */
    method UpdateNowPlaying(info: MediaInfo, now: real, panelState: NotchState)
      modifies this
      ensures nowPlaying == Some(info) && lastElapsed == info.elapsedTime && lastFetchTime == now
      ensures View() == Progress(Some(info), isPlaying, info.elapsedTime, now, now)
      ensures var announce := AnnouncesTrackChange(if old(nowPlaying).Some? then Some(old(nowPlaying).value.title)
                                                   else None, info, panelState);
        (announce ==> showTrackChangeNotification && trackChangeInfo == Some(info)
                      && pendingHides == old(pendingHides) + 1)
        && (!announce ==> showTrackChangeNotification == old(showTrackChangeNotification)
                          && trackChangeInfo == old(trackChangeInfo) && pendingHides == old(pendingHides))
      ensures isPlaying == old(isPlaying) && observing == old(observing)
      ensures displayLinkSubscription == old(displayLinkSubscription) && currentArtwork == old(currentArtwork)
      ensures Snapshot() == NowPlayingStep(old(Snapshot()), info, now, panelState)
    {
      ghost var p := Snapshot();
      var previousTrack := if nowPlaying.Some? then Some(nowPlaying.value.title) else None;
      nowPlaying := Some(info);
      lastElapsed := info.elapsedTime;
      lastFetchTime := now;
      UpdateProgress(now);
      assert Snapshot() == p.(nowPlaying := Some(info), lastElapsed := info.elapsedTime, lastFetchTime := now,
                              view := Progress(Some(info), p.isPlaying, info.elapsedTime, now, now));
      if AnnouncesTrackChange(previousTrack, info, panelState) {
        ShowTrackChange(info);
      }
    }

    /** Shows the track-change notification for `info` and starts its hide task. */
    method ShowTrackChange(info: MediaInfo)
      modifies this
      ensures showTrackChangeNotification && trackChangeInfo == Some(info) && pendingHides == old(pendingHides) + 1
      ensures nowPlaying == old(nowPlaying) && lastElapsed == old(lastElapsed) && lastFetchTime == old(lastFetchTime)
      ensures isPlaying == old(isPlaying) && observing == old(observing) && View() == old(View())
      ensures displayLinkSubscription == old(displayLinkSubscription) && currentArtwork == old(currentArtwork)
    {
      showTrackChangeNotification := true;
      trackChangeInfo := Some(info);
      pendingHides := pendingHides + 1;
    }

    /** One notification hide task runs, whichever notification it was started for. */
    method FireNotificationHide()
      requires pendingHides > 0
      modifies this
      ensures !showTrackChangeNotification && pendingHides == old(pendingHides) - 1
      ensures nowPlaying == old(nowPlaying) && trackChangeInfo == old(trackChangeInfo) && View() == old(View())
      ensures Snapshot() == old(Snapshot()).(showTrackChangeNotification := false, pendingHides := old(pendingHides) - 1)
    {
      showTrackChangeNotification := false;
      pendingHides := pendingHides - 1;
    }

    /** `stopDisplayLink()`. */
    method StopDisplayLink()
      requires Valid()
      modifies this, clock
      ensures Valid() && displayLinkSubscription.None?
      ensures old(displayLinkSubscription).Some? ==>
                clock.Snapshot() == FrameClock.UnsubscribeStep(old(clock.Snapshot()), old(displayLinkSubscription).value)
      ensures old(displayLinkSubscription).None? ==> clock.Snapshot() == old(clock.Snapshot())
      ensures nowPlaying == old(nowPlaying) && isPlaying == old(isPlaying) && observing == old(observing)
      ensures View() == old(View()) && lastElapsed == old(lastElapsed) && lastFetchTime == old(lastFetchTime)
      ensures showTrackChangeNotification == old(showTrackChangeNotification) && pendingHides == old(pendingHides)
      ensures currentArtwork == old(currentArtwork) && trackChangeInfo == old(trackChangeInfo)
    {
      if displayLinkSubscription.Some? {
        FrameClock.UnsubscribeKeepsInv(clock.Snapshot(), displayLinkSubscription.value);
        clock.Unsubscribe(displayLinkSubscription.value);
        displayLinkSubscription := None;
      }
    }

    /**
     * `startDisplayLink()`: the old subscription is released before the new
     * one is taken, so the clock never holds two of this view-model's tokens.
     */
    method StartDisplayLink(created: bool)
      requires Valid()
      modifies this, clock
      ensures Valid() && displayLinkSubscription.Some?
      ensures old(displayLinkSubscription).Some? ==> old(displayLinkSubscription).value !in clock.subscribers
      ensures clock.subscribers == (if old(displayLinkSubscription).Some?
                                    then old(clock.subscribers) - {old(displayLinkSubscription).value}
                                    else old(clock.subscribers)) + {displayLinkSubscription.value}
      ensures displayLinkSubscription.value !in old(clock.subscribers)
      ensures nowPlaying == old(nowPlaying) && isPlaying == old(isPlaying) && observing == old(observing)
      ensures View() == old(View()) && lastElapsed == old(lastElapsed) && lastFetchTime == old(lastFetchTime)
      ensures showTrackChangeNotification == old(showTrackChangeNotification) && pendingHides == old(pendingHides)
      ensures currentArtwork == old(currentArtwork) && trackChangeInfo == old(trackChangeInfo)
    {
      StopDisplayLink();
      FrameClock.SubscribeKeepsInv(clock.Snapshot(), created);
      var id := clock.Subscribe(created);
      displayLinkSubscription := Some(id);
    }

    /** A frame of the display link reaches this view-model's callback at time `now`. */
    method OnFrame(now: real)
      modifies this
      ensures View() == Progress(nowPlaying, isPlaying, lastElapsed, lastFetchTime, now)
      ensures nowPlaying == old(nowPlaying) && isPlaying == old(isPlaying)
      ensures displayLinkSubscription == old(displayLinkSubscription) && observing == old(observing)
      ensures Snapshot() == old(Snapshot()).(view := Progress(old(nowPlaying), old(isPlaying), old(lastElapsed),
                                                               old(lastFetchTime), now))
    {
      UpdateProgress(now);
    }

    /** The `playbackChanges` sink. */
    method OnPlaybackChanged(state: PlaybackState, created: bool)
      requires Valid()
      modifies this, clock
      ensures Valid()
      ensures observing ==> isPlaying == (state == Playing) && (displayLinkSubscription.Some? <==> state == Playing)
      ensures !observing ==> isPlaying == old(isPlaying) && displayLinkSubscription == old(displayLinkSubscription)
                             && clock.Snapshot() == old(clock.Snapshot())
      ensures observing == old(observing)
      ensures old(Synced()) ==> Synced()
      ensures observing ==> Snapshot() == old(Snapshot()).(isPlaying := state == Playing,
                                                           displayLinkSubscription := displayLinkSubscription)
      ensures !observing ==> Snapshot() == old(Snapshot())
      ensures observing && state == Playing ==>
                clock.subscribers == (if old(displayLinkSubscription).Some?
                                      then old(clock.subscribers) - {old(displayLinkSubscription).value}
                                      else old(clock.subscribers)) + {displayLinkSubscription.value}
                && displayLinkSubscription.value !in old(clock.subscribers)
      ensures observing && state != Playing && old(displayLinkSubscription).Some? ==>
                clock.Snapshot() == FrameClock.UnsubscribeStep(old(clock.Snapshot()), old(displayLinkSubscription).value)
      ensures observing && state != Playing && old(displayLinkSubscription).None? ==>
                clock.Snapshot() == old(clock.Snapshot())
    {
      if !observing {
        return;
      }
      isPlaying := state == Playing;
      if state == Playing {
        StartDisplayLink(created);
      } else {
        StopDisplayLink();
      }
    }

    /** The `mediaChanges` sink. */
    method OnMediaChanged(info: MediaInfo, now: real, panelState: NotchState)
      modifies this
      ensures observing ==> nowPlaying == Some(info) && View() == Progress(Some(info), isPlaying, info.elapsedTime, now, now)
      ensures !observing ==> nowPlaying == old(nowPlaying) && View() == old(View())
      ensures isPlaying == old(isPlaying) && observing == old(observing)
      ensures displayLinkSubscription == old(displayLinkSubscription)
      ensures observing ==> Snapshot() == NowPlayingStep(old(Snapshot()), info, now, panelState)
      ensures !observing ==> Snapshot() == old(Snapshot())
    {
      if observing {
        UpdateNowPlaying(info, now, panelState);
      }
    }

    /** The artwork sink. */
    method OnArtworkChanged(image: Option<ImageId>)
      modifies this
      ensures observing ==> currentArtwork == image
      ensures !observing ==> currentArtwork == old(currentArtwork)
      ensures nowPlaying == old(nowPlaying) && View() == old(View()) && observing == old(observing)
      ensures displayLinkSubscription == old(displayLinkSubscription) && isPlaying == old(isPlaying)
      ensures Snapshot() == if observing then old(Snapshot()).(currentArtwork := image) else old(Snapshot())
    {
      if observing {
        currentArtwork := image;
      }
    }

    /**
     * `startObserving()`: adopt the bridge's current track, artwork and state,
     * hold a frame subscription if playing, then subscribe to the streams.
     */
    method StartObserving(bridgeNowPlaying: Option<MediaInfo>, bridgeArtwork: Option<ImageId>,
                          bridgePlayback: PlaybackState, now: real, panelState: NotchState, created: bool)
      requires Valid()
      modifies this, clock
      ensures Valid() && observing
      ensures bridgeNowPlaying.Some? ==> nowPlaying == bridgeNowPlaying
      ensures bridgeNowPlaying.None? ==> nowPlaying == old(nowPlaying)
      ensures currentArtwork == bridgeArtwork && isPlaying == (bridgePlayback == Playing)
      ensures isPlaying ==> displayLinkSubscription.Some?
      ensures old(Synced()) && !old(observing) ==> Synced()
      ensures var adopted := if bridgeNowPlaying.Some?
                             then NowPlayingStep(old(Snapshot()), bridgeNowPlaying.value, now, panelState)
                             else old(Snapshot());
        Snapshot() == adopted.(currentArtwork := bridgeArtwork, isPlaying := bridgePlayback == Playing,
                               observing := true, displayLinkSubscription := displayLinkSubscription)
      ensures bridgePlayback != Playing ==>
                displayLinkSubscription == old(displayLinkSubscription) && clock.Snapshot() == old(clock.Snapshot())
      ensures bridgePlayback == Playing ==>
                clock.subscribers == (if old(displayLinkSubscription).Some?
                                      then old(clock.subscribers) - {old(displayLinkSubscription).value}
                                      else old(clock.subscribers)) + {displayLinkSubscription.value}
                && displayLinkSubscription.value !in old(clock.subscribers)
    {
      if bridgeNowPlaying.Some? {
        UpdateNowPlaying(bridgeNowPlaying.value, now, panelState);
      }
      currentArtwork := bridgeArtwork;
      isPlaying := bridgePlayback == Playing;
      if isPlaying {
        StartDisplayLink(created);
      }
      observing := true;
    }

    /** `stopObserving()`. */
    method StopObserving()
      requires Valid()
      modifies this, clock
      ensures Valid() && !observing && displayLinkSubscription.None? && Synced()
      ensures old(displayLinkSubscription).Some? ==> old(displayLinkSubscription).value !in clock.subscribers
      ensures nowPlaying == old(nowPlaying) && isPlaying == old(isPlaying) && View() == old(View())
      ensures Snapshot() == old(Snapshot()).(observing := false, displayLinkSubscription := None)
      ensures old(displayLinkSubscription).Some? ==>
                clock.Snapshot() == FrameClock.UnsubscribeStep(old(clock.Snapshot()), old(displayLinkSubscription).value)
      ensures old(displayLinkSubscription).None? ==> clock.Snapshot() == old(clock.Snapshot())
    {
      observing := false;
      StopDisplayLink();
    }
  }
}
