// The media bridge (NotchApp/Sources/SystemBridge/MediaBridge.swift): which
// player is active, how a polling script's reply is read into a MediaInfo,
// when a poll is announced on the event bus, the optimistic play/pause and
// like toggles, and the artwork download guard.
//
// Everything the bridge asks of the system is an input: whether each player
// is running, the script's reply, the artwork cache's entry, Swift's
// `Double(_:)` and `URL(string:)` (left uninterpreted, as function values),
// and the like-status reply. The script commands the bridge would run are
// returned as strings; the download it would start is returned as its URL.
module MediaBridge {
  import opened Wrappers
  import opened Text
  import opened Events

  datatype Player = Spotify | AppleMusic

  const SpotifyBundle := "com.spotify.client"
  const MusicBundle := "com.apple.Music"

  /** `ActivePlayer.rawValue`. */
  function BundleId(p: Player): string
  {
    match p
    case Spotify => SpotifyBundle
    case AppleMusic => MusicBundle
  }

  /** What one poll finds in the system. */
  datatype World = World(
    spotifyRunning: bool,
    musicRunning: bool,
    /** The polling script's reply, `nil` when it produced no string. */
    reply: Option<string>,
    /** `Double(_:)` on a field. */
    number: string -> Option<real>,
    /** `URL(string:)` on a field. */
    url: string -> Option<string>,
    /** The artwork cache's entry for the track's key. */
    cached: Option<ImageId>,
    /** The artwork Music hands over by script. */
    scriptArtwork: Option<ImageId>,
    /** The reply to the like-status query. */
    likeReply: Option<string>)

  // ---------------------------------------------------------------------------
  // Player detection
  // ---------------------------------------------------------------------------

  /** `detectActivePlayer()`. */
  function Detect(spotifyRunning: bool, musicRunning: bool): Option<Player>
  {
    if spotifyRunning then Some(Spotify) else if musicRunning then Some(AppleMusic) else None
  }

  /** Spotify wins over Music, and with neither running there is no player. */
  lemma DetectPriority(spotifyRunning: bool, musicRunning: bool)
    ensures Detect(spotifyRunning, musicRunning) == Some(Spotify) <==> spotifyRunning
    ensures Detect(spotifyRunning, musicRunning) == Some(AppleMusic) <==> !spotifyRunning && musicRunning
    ensures Detect(spotifyRunning, musicRunning) == None <==> !spotifyRunning && !musicRunning
  {
  }

  // ---------------------------------------------------------------------------
  // Reading a script reply
  // ---------------------------------------------------------------------------

  const Separator := "|||"
  const NotRunningReply := "NOT_RUNNING"

  /** How a reply was read: the player is gone, the field count is wrong, or a track. */
  datatype Reading = NotRunning | Malformed(count: nat) | Track(info: MediaInfo, isPlaying: bool)

  /** A numeric field: trimmed, with a decimal comma made a point. */
  function Numeric(field: string): string
  {
    ReplaceAll(Trim(field), ",", ".")
  }

  /** Swift's `min(x, y)`. */
  function Min(x: real, y: real): (r: real)
    ensures r <= x && r <= y && (r == x || r == y)
  {
    if y < x then y else x
  }

  /** The playing flag is set exactly by the text "true", whitespace aside. */
  predicate SaysTrue(field: string)
  {
    Trim(field) == "true"
  }

  /** `fetchSpotifyInfo()`'s reading of the reply: seven fields, the duration in milliseconds. */
  function ReadSpotify(reply: Option<string>, number: string -> Option<real>, url: string -> Option<string>): Reading
  {
    if reply.None? || reply.value == NotRunningReply then NotRunning
    else
      var parts := Split(reply.value, Separator);
      if |parts| != 7 then Malformed(|parts|)
      else
        var duration := number(Trim(parts[4])).GetOr(1000.0) / 1000.0;
        var current := number(Numeric(parts[5])).GetOr(0.0);
        Track(MediaInfo(Trim(parts[0]), Trim(parts[1]), Trim(parts[2]), None, url(Trim(parts[3])),
                        duration, Min(current, duration), Some(SpotifyBundle)),
              SaysTrue(parts[6]))
  }

  /** `fetchAppleMusicInfo()`'s reading of the reply: six fields, the duration in seconds. */
  function ReadMusic(reply: Option<string>, number: string -> Option<real>): Reading
  {
    if reply.None? || reply.value == NotRunningReply then NotRunning
    else
      var parts := Split(reply.value, Separator);
      if |parts| != 6 then Malformed(|parts|)
      else
        var duration := number(Numeric(parts[3])).GetOr(1.0);
        var current := number(Numeric(parts[4])).GetOr(0.0);
        Track(MediaInfo(Trim(parts[0]), Trim(parts[1]), Trim(parts[2]), None, None,
                        duration, Min(current, duration), Some(MusicBundle)),
              SaysTrue(parts[5]))
  }

  /**
   * A reply is used only when present, not "NOT_RUNNING", and splitting into
   * exactly seven fields; the elapsed time never passes the duration.
   */
  lemma SpotifyReplyShape(reply: Option<string>, number: string -> Option<real>, url: string -> Option<string>)
    ensures ReadSpotify(reply, number, url).NotRunning? <==> reply.None? || reply.value == NotRunningReply
    ensures ReadSpotify(reply, number, url).Track? <==>
              reply.Some? && reply.value != NotRunningReply && |Split(reply.value, Separator)| == 7
    ensures var r := ReadSpotify(reply, number, url);
      r.Track? ==> r.info.elapsedTime <= r.info.duration && r.info.appBundleIdentifier == Some(SpotifyBundle)
  {
  }

  /** The same for Music, with exactly six fields. */
  lemma MusicReplyShape(reply: Option<string>, number: string -> Option<real>)
    ensures ReadMusic(reply, number).NotRunning? <==> reply.None? || reply.value == NotRunningReply
    ensures ReadMusic(reply, number).Track? <==>
              reply.Some? && reply.value != NotRunningReply && |Split(reply.value, Separator)| == 6
    ensures var r := ReadMusic(reply, number);
      r.Track? ==> (r.info.elapsedTime <= r.info.duration && r.info.appBundleIdentifier == Some(MusicBundle)
                    && r.info.artworkURL == None)
  {
  }

  /** The fields a script joins with "|||" are read back, trimmed, when none of them holds a '|'. */
  lemma SpotifyFieldsReadBack(fields: seq<string>, number: string -> Option<real>, url: string -> Option<string>)
    requires |fields| == 7 && PiecesAvoid(fields, '|')
    ensures var r := ReadSpotify(Some(Join(fields, Separator)), number, url);
      var duration := number(Trim(fields[4])).GetOr(1000.0) / 1000.0;
      r.Track?
      && r.info.title == Trim(fields[0]) && r.info.artist == Trim(fields[1]) && r.info.album == Trim(fields[2])
      && r.info.artworkURL == url(Trim(fields[3]))
      && r.info.duration == duration
      && (number(Trim(fields[4])).None? ==> r.info.duration == 1.0)
      && r.info.elapsedTime == Min(number(Numeric(fields[5])).GetOr(0.0), duration)
      && (r.isPlaying <==> Trim(fields[6]) == "true")
  {
    var reply := Join(fields, Separator);
    SplitJoin(fields, Separator);
    JoinLongerThanReply(fields);
    assert Split(reply, Separator) == fields;
  }

  /** The same for Music's six fields. */
  lemma MusicFieldsReadBack(fields: seq<string>, number: string -> Option<real>)
    requires |fields| == 6 && PiecesAvoid(fields, '|')
    ensures var r := ReadMusic(Some(Join(fields, Separator)), number);
      var duration := number(Numeric(fields[3])).GetOr(1.0);
      r.Track?
      && r.info.title == Trim(fields[0]) && r.info.artist == Trim(fields[1]) && r.info.album == Trim(fields[2])
      && r.info.duration == duration
      && r.info.elapsedTime == Min(number(Numeric(fields[4])).GetOr(0.0), duration)
      && (r.isPlaying <==> Trim(fields[5]) == "true")
  {
    SplitJoin(fields, Separator);
    JoinLongerThanReply(fields);
  }

  /** A join of several fields holds the separator, so it is never the "NOT_RUNNING" reply. */
  lemma JoinLongerThanReply(fields: seq<string>)
    requires |fields| >= 2
    ensures Join(fields, Separator) != NotRunningReply
  {
    var j := Join(fields, Separator);
    assert j == fields[0] + Separator + Join(fields[1..], Separator);
    assert j[|fields[0]|] == '|';
    assert forall k :: 0 <= k < |NotRunningReply| ==> NotRunningReply[k] != '|';
  }

  /** A reply with any other number of bar-free fields is dropped. */
  lemma WrongFieldCount(fields: seq<string>, number: string -> Option<real>, url: string -> Option<string>)
    requires |fields| >= 2 && PiecesAvoid(fields, '|')
    ensures |fields| != 7 ==> ReadSpotify(Some(Join(fields, Separator)), number, url) == Malformed(|fields|)
    ensures |fields| != 6 ==> ReadMusic(Some(Join(fields, Separator)), number) == Malformed(|fields|)
  {
    SplitJoin(fields, Separator);
    JoinLongerThanReply(fields);
  }

  // ---------------------------------------------------------------------------
  // Artwork URLs
  // ---------------------------------------------------------------------------

  const ArtworkHost := "i.scdn.co/image/"
  const LargeArtwork := "ab67616d0000b273"
  const SmallArtwork := "ab67616d00004851"

  /** `optimizeSpotifyArtworkURL(_:)`: ask Spotify's image host for the 300-pixel image. */
  function OptimizeArtworkURL(url: string): string
  {
    if Contains(url, ArtworkHost + LargeArtwork) then ReplaceAll(url, LargeArtwork, SmallArtwork) else url
  }

  /** The URL changes exactly when it is a large image on Spotify's host, and keeps its length. */
  lemma OptimizeArtworkURLSpec(url: string)
    ensures OptimizeArtworkURL(url) == url <==> !Contains(url, ArtworkHost + LargeArtwork)
    ensures |OptimizeArtworkURL(url)| == |url|
  {
    if Contains(url, ArtworkHost + LargeArtwork) {
      ReplaceAllKeepsLength(url, LargeArtwork, SmallArtwork);
      var i := IndexOf(url, ArtworkHost + LargeArtwork).value;
      assert url[i + 16..i + 32] == (ArtworkHost + LargeArtwork)[16..];
      assert OccursAt(url, LargeArtwork, i + 16);
      assert LargeArtwork[12] != SmallArtwork[12];
      ReplaceAllChanges(url, LargeArtwork, SmallArtwork);
    }
  }

  // ---------------------------------------------------------------------------
  // The bridge as a value
  // ---------------------------------------------------------------------------

  datatype Bridge = Bridge(
    nowPlaying: Option<MediaInfo>,
    playbackState: PlaybackState,
    activePlayer: Option<Player>,
    isLiked: bool,
    currentArtwork: Option<ImageId>,
    lastArtworkCacheKey: string)

  const Initial := Bridge(None, Stopped, None, false, None, "")

  /** A poll's result: the new bridge, the events sent, and the artwork download started, if any. */
  datatype Outcome = Outcome(bridge: Bridge, events: seq<NotchEvent>, download: Option<string>)

  /** `checkLikeStatus()`: the like flag the reply sets, when there is a player and a reply. */
  function LikeAfterCheck(b: Bridge, likeReply: Option<string>): bool
  {
    if b.activePlayer.Some? && likeReply.Some? then Trim(likeReply.value) == "true" else b.isLiked
  }

  /** `updateState(mediaInfo:isPlaying:)`: the new bridge and the events sent. */
  function UpdateStep(b: Bridge, info: MediaInfo, isPlaying: bool, likeReply: Option<string>): (Bridge, seq<NotchEvent>)
  {
    var state := if isPlaying then Playing else Paused;
    var stateEvents := if b.playbackState != state then [PlaybackStateChanged(state)] else [];
    var b1 := b.(playbackState := state);
    var media := MediaStep(b1, info, likeReply);
    (media.0, stateEvents + media.1)
  }

  /** The second half of `updateState`: store news and, for another track, re-check the like. */
  function MediaStep(b: Bridge, info: MediaInfo, likeReply: Option<string>): (Bridge, seq<NotchEvent>)
  {
    if b.nowPlaying.None? || !SameMedia(b.nowPlaying.value, info) then
      var b2 := b.(nowPlaying := Some(info));
      (b2.(isLiked := LikeAfterCheck(b2, likeReply)), [MediaChanged(info)])
    else if b.nowPlaying.value.elapsedTime != info.elapsedTime then
      (b.(nowPlaying := Some(info)), [MediaChanged(info)])
    else (b, [])
  }

  /** Whether a poll's info is news: another track (under `MediaInfo ==`), or a moved position. */
  predicate IsNews(nowPlaying: Option<MediaInfo>, info: MediaInfo)
  {
    nowPlaying.None? || !SameMedia(nowPlaying.value, info) || nowPlaying.value.elapsedTime != info.elapsedTime
  }

  /**
   * `playbackStateChanged` is sent exactly when the state changes, and first;
   * `mediaChanged` exactly when the info is news, and then it is stored.
   */
  lemma UpdateStepSpec(b: Bridge, info: MediaInfo, isPlaying: bool, likeReply: Option<string>)
    ensures var (b', events) := UpdateStep(b, info, isPlaying, likeReply);
      var state := if isPlaying then Playing else Paused;
      b'.playbackState == state
      && (PlaybackStateChanged(state) in events <==> b.playbackState != state)
      && (MediaChanged(info) in events <==> IsNews(b.nowPlaying, info))
      && |events| <= 2
      && (forall e :: e in events ==> e == PlaybackStateChanged(state) || e == MediaChanged(info))
      && (IsNews(b.nowPlaying, info) ==> b'.nowPlaying == Some(info))
      && (!IsNews(b.nowPlaying, info) ==> b'.nowPlaying == b.nowPlaying)
      && b'.nowPlaying.Some?
      && (b.nowPlaying.Some? && SameMedia(b.nowPlaying.value, info) ==> b'.isLiked == b.isLiked)
      && b'.activePlayer == b.activePlayer && b'.currentArtwork == b.currentArtwork
  {
  }

  /** A second identical update is silent and changes nothing. */
  lemma UpdateSettles(b: Bridge, info: MediaInfo, isPlaying: bool, likeReply: Option<string>, again: Option<string>)
    ensures var (b', _) := UpdateStep(b, info, isPlaying, likeReply);
      UpdateStep(b', info, isPlaying, again) == (b', [])
  {
    var (b', _) := UpdateStep(b, info, isPlaying, likeReply);
    UpdateStepSpec(b, info, isPlaying, likeReply);
    SameMediaIsEquivalence(info, info, info);
    assert b'.nowPlaying.Some? && SameMedia(b'.nowPlaying.value, info);
    assert b'.nowPlaying.value.elapsedTime == info.elapsedTime;
    assert b'.(playbackState := if isPlaying then Playing else Paused) == b';
    assert MediaStep(b', info, again) == (b', []);
    var silent: seq<NotchEvent> := [];
    assert silent + silent == silent;
    assert UpdateStep(b', info, isPlaying, again).1 == silent;
  }

  /** `fetchArtworkFromURL(_:cacheKey:)`: the bridge and the download started, if any. */
  function FetchArtworkStep(b: Bridge, url: string, key: string): (Bridge, Option<string>)
  {
    if key == b.lastArtworkCacheKey then (b, None)
    else (b.(lastArtworkCacheKey := key, currentArtwork := None), Some(OptimizeArtworkURL(url)))
  }

  /**
   * The same key as the last fetched one starts nothing and changes nothing;
   * a new key clears the artwork, is remembered, and downloads the optimised URL.
   */
  lemma FetchArtworkOnce(b: Bridge, url: string, key: string, url2: string)
    ensures FetchArtworkStep(b, url, key).1.None? <==> key == b.lastArtworkCacheKey
    ensures key == b.lastArtworkCacheKey ==> FetchArtworkStep(b, url, key).0 == b
    ensures var (b', d) := FetchArtworkStep(b, url, key);
      key != b.lastArtworkCacheKey ==>
        b'.lastArtworkCacheKey == key && b'.currentArtwork == None && d == Some(OptimizeArtworkURL(url))
        && FetchArtworkStep(b', url2, key) == (b', None)
  {
  }

  /** `fetchSpotifyInfo()` once the reply is read. */
  function SpotifyStep(b: Bridge, r: Reading, w: World): Outcome
  {
    match r
    case NotRunning =>
      var b' := if b.activePlayer == Some(Spotify) then b.(activePlayer := Detect(w.spotifyRunning, w.musicRunning)) else b;
      Outcome(b', [], None)
    case Malformed(_) => Outcome(b, [], None)
    case Track(info, isPlaying) =>
      var key := info.artist + "-" + info.album;
      var (b1, download) :=
        if w.cached.Some? then (b.(currentArtwork := w.cached), None)
        else if info.artworkURL.Some? then FetchArtworkStep(b, info.artworkURL.value, key)
        else (b, None);
      var (b2, events) := UpdateStep(b1, info, isPlaying, w.likeReply);
      Outcome(b2, events, download)
  }

  /** `fetchAppleMusicInfo()` once the reply is read. */
  function MusicStep(b: Bridge, r: Reading, w: World): Outcome
  {
    match r
    case NotRunning =>
      var b' := if b.activePlayer == Some(AppleMusic) then b.(activePlayer := Detect(w.spotifyRunning, w.musicRunning)) else b;
      Outcome(b', [], None)
    case Malformed(_) => Outcome(b, [], None)
    case Track(info, isPlaying) =>
      var artwork := if w.cached.Some? then w.cached else w.scriptArtwork;
      var (b2, events) := UpdateStep(b.(currentArtwork := artwork), info, isPlaying, w.likeReply);
      Outcome(b2, events, None)
  }

  /** `pollNowPlaying()`: detect a player if there is none, then read the active one's reply. */
  function PollStep(b: Bridge, w: World): Outcome
  {
    var b0 := if b.activePlayer.None? then b.(activePlayer := Detect(w.spotifyRunning, w.musicRunning)) else b;
    match b0.activePlayer
    case None => Outcome(b0, [], None)
    case Some(Spotify) => SpotifyStep(b0, ReadSpotify(w.reply, w.number, w.url), w)
    case Some(AppleMusic) => MusicStep(b0, ReadMusic(w.reply, w.number), w)
  }

  /** A poll with no player running and none active changes nothing and sends nothing. */
  lemma PollWithoutPlayer(b: Bridge, w: World)
    requires b.activePlayer.None? && !w.spotifyRunning && !w.musicRunning
    ensures PollStep(b, w) == Outcome(b, [], None)
  {
  }

  /** Only a Spotify poll starts a download, and then the old artwork is already cleared. */
  lemma PollDownloadIsSpotify(b: Bridge, w: World)
    ensures var o := PollStep(b, w);
      o.download.Some? ==> o.bridge.activePlayer == Some(Spotify) && o.bridge.currentArtwork.None?
  {
    var b0 := if b.activePlayer.None? then b.(activePlayer := Detect(w.spotifyRunning, w.musicRunning)) else b;
    if b0.activePlayer == Some(Spotify) {
      SpotifyDownload(b0, ReadSpotify(w.reply, w.number, w.url), w);
    }
  }

  /** A Spotify reading starts a download only after clearing the artwork, and keeps the player. */
  lemma SpotifyDownload(b: Bridge, r: Reading, w: World)
    ensures var o := SpotifyStep(b, r, w);
      o.download.Some? ==> o.bridge.activePlayer == b.activePlayer && o.bridge.currentArtwork.None?
  {
    if r.Track? && w.cached.None? && r.info.artworkURL.Some? {
      var (b1, d) := FetchArtworkStep(b, r.info.artworkURL.value, r.info.artist + "-" + r.info.album);
      UpdateStepSpec(b1, r.info, r.isPlaying, w.likeReply);
    }
  }

  /** Reading Spotify sends something only for a track, and then a track is stored. */
  lemma SpotifyStepEvents(b: Bridge, r: Reading, w: World)
    ensures var o := SpotifyStep(b, r, w);
      o.events != [] ==> r.Track? && o.bridge.activePlayer == b.activePlayer && o.bridge.nowPlaying.Some?
  {
    if r.Track? {
      var key := r.info.artist + "-" + r.info.album;
      var (b1, _) :=
        if w.cached.Some? then (b.(currentArtwork := w.cached), None)
        else if r.info.artworkURL.Some? then FetchArtworkStep(b, r.info.artworkURL.value, key)
        else (b, None);
      UpdateStepSpec(b1, r.info, r.isPlaying, w.likeReply);
    }
  }

  /** Reading Music sends something only for a track, and then a track is stored. */
  lemma MusicStepEvents(b: Bridge, r: Reading, w: World)
    ensures var o := MusicStep(b, r, w);
      o.events != [] ==> r.Track? && o.bridge.activePlayer == b.activePlayer && o.bridge.nowPlaying.Some?
  {
    if r.Track? {
      var artwork := if w.cached.Some? then w.cached else w.scriptArtwork;
      UpdateStepSpec(b.(currentArtwork := artwork), r.info, r.isPlaying, w.likeReply);
    }
  }

  /** A poll that sends anything has read a track from an active player. */
  lemma PollEventsNeedTrack(b: Bridge, w: World)
    ensures var o := PollStep(b, w);
      o.events != [] ==> o.bridge.activePlayer.Some? && o.bridge.nowPlaying.Some?
  {
    var b0 := if b.activePlayer.None? then b.(activePlayer := Detect(w.spotifyRunning, w.musicRunning)) else b;
    match b0.activePlayer
    case None =>
    case Some(Spotify) => SpotifyStepEvents(b0, ReadSpotify(w.reply, w.number, w.url), w);
    case Some(AppleMusic) => MusicStepEvents(b0, ReadMusic(w.reply, w.number), w);
  }

  /** Spotify's artwork comes from the cache first; only a miss with a URL starts a download. */
  lemma SpotifyArtworkSource(b: Bridge, info: MediaInfo, isPlaying: bool, w: World)
    ensures var o := SpotifyStep(b, Track(info, isPlaying), w);
      (w.cached.Some? ==> o.bridge.currentArtwork == w.cached && o.download.None?)
      && (w.cached.None? && info.artworkURL.Some? && info.artist + "-" + info.album != b.lastArtworkCacheKey ==>
            o.download == Some(OptimizeArtworkURL(info.artworkURL.value)))
  {
  }

  // ---------------------------------------------------------------------------
  // Controls
  // ---------------------------------------------------------------------------

  /** The play/pause script for the player: Spotify toggles itself, Music is told which. */
  function PlayPauseScript(p: Player, state: PlaybackState): string
  {
    match p
    case Spotify => "tell application \"Spotify\" to playpause"
    case AppleMusic =>
      if state == Playing then "tell application \"Music\" to pause" else "tell application \"Music\" to play"
  }

  /** `togglePlayPause()`: the bridge, the events sent and the script run. */
  function TogglePlayPauseStep(b: Bridge): (Bridge, seq<NotchEvent>, Option<string>)
  {
    if b.activePlayer.None? then (b, [], None)
    else
      var state := if b.playbackState == Playing then Paused else Playing;
      (b.(playbackState := state), [PlaybackStateChanged(state)], Some(PlayPauseScript(b.activePlayer.value, b.playbackState)))
  }

  /** Without a player nothing happens; otherwise playing pauses, anything else plays, and it is announced. */
  lemma TogglePlayPauseSpec(b: Bridge)
    ensures b.activePlayer.None? ==> TogglePlayPauseStep(b) == (b, [], None)
    ensures var (b', events, script) := TogglePlayPauseStep(b);
      b.activePlayer.Some? ==>
        (b'.playbackState == Paused <==> b.playbackState == Playing)
        && b'.playbackState != Stopped
        && events == [PlaybackStateChanged(b'.playbackState)]
        && script.Some? && b' == b.(playbackState := b'.playbackState)
  {
  }

  /** Toggling twice from playing or paused comes back to where it started. */
  lemma TogglePlayPauseTwice(b: Bridge)
    requires b.activePlayer.Some? && b.playbackState != Stopped
    ensures TogglePlayPauseStep(TogglePlayPauseStep(b).0).0 == b
  {
  }

  /** `toggleLike()`: the bridge and the script run. */
  function ToggleLikeStep(b: Bridge): (Bridge, Option<string>)
  {
    if b.activePlayer.None? then (b, None)
    else
      var liked := !b.isLiked;
      var value := if liked then "true" else "false";
      var script := match b.activePlayer.value
        case Spotify => "tell application \"Spotify\" to set starred of current track to " + value
        case AppleMusic => "tell application \"Music\" to set favorited of current track to " + value;
      (b.(isLiked := liked), Some(script))
  }

  /** Without a player nothing happens; otherwise only the like flag flips, and twice restores it. */
  lemma ToggleLikeSpec(b: Bridge)
    ensures b.activePlayer.None? ==> ToggleLikeStep(b) == (b, None)
    ensures b.activePlayer.Some? ==>
              ToggleLikeStep(b).0 == b.(isLiked := !b.isLiked) && ToggleLikeStep(ToggleLikeStep(b).0).0 == b
  {
  }

  /** The termination observer: re-detect, and with no player left clear the track and announce stopped. */
  function TerminatedStep(b: Bridge, spotifyRunning: bool, musicRunning: bool): (Bridge, seq<NotchEvent>)
  {
    var player := Detect(spotifyRunning, musicRunning);
    if player.None? then
      (b.(activePlayer := None, nowPlaying := None, playbackState := Stopped), [PlaybackStateChanged(Stopped)])
    else (b.(activePlayer := player), [])
  }

  /** The stop is announced even when the bridge was already stopped. */
  lemma TerminatedAnnouncesStop(b: Bridge)
    ensures TerminatedStep(b, false, false) == (b.(activePlayer := None, nowPlaying := None, playbackState := Stopped),
                                               [PlaybackStateChanged(Stopped)])
    ensures TerminatedStep(b, true, false).0.activePlayer == Some(Spotify) && TerminatedStep(b, true, false).1 == []
  {
  }

  // ---------------------------------------------------------------------------
  // The bridge object
  // ---------------------------------------------------------------------------

  class MediaBridge {
    var nowPlaying: Option<MediaInfo>
    var playbackState: PlaybackState
    var activePlayer: Option<Player>
    var isLiked: bool
    var currentArtwork: Option<ImageId>
    var lastArtworkCacheKey: string
    const bus: Bus

    function Snapshot(): Bridge
      reads this
    {
      Bridge(nowPlaying, playbackState, activePlayer, isLiked, currentArtwork, lastArtworkCacheKey)
    }

    constructor (bus: Bus)
      ensures Snapshot() == Initial && this.bus == bus
    {
      nowPlaying := None;
      playbackState := Stopped;
      activePlayer := None;
      isLiked := false;
      currentArtwork := None;
      lastArtworkCacheKey := "";
      this.bus := bus;
    }

    /** `detectActivePlayer()`. */
    method DetectActivePlayer(spotifyRunning: bool, musicRunning: bool)
      modifies this
      ensures Snapshot() == old(Snapshot()).(activePlayer := Detect(spotifyRunning, musicRunning))
    {
      if spotifyRunning {
        activePlayer := Some(Spotify);
      } else if musicRunning {
        activePlayer := Some(AppleMusic);
      } else {
        activePlayer := None;
      }
    }

    /** `checkLikeStatus()`. */
    method CheckLikeStatus(likeReply: Option<string>)
      modifies this
      ensures Snapshot() == old(Snapshot()).(isLiked := LikeAfterCheck(old(Snapshot()), likeReply))
    {
      if activePlayer.None? {
        return;
      }
      if likeReply.Some? {
        isLiked := Trim(likeReply.value) == "true";
      }
    }

    /** `updateState(mediaInfo:isPlaying:)`. */
    method UpdateState(info: MediaInfo, isPlaying: bool, likeReply: Option<string>)
      modifies this, bus
      ensures Snapshot() == UpdateStep(old(Snapshot()), info, isPlaying, likeReply).0
      ensures bus.log == old(bus.log) + UpdateStep(old(Snapshot()), info, isPlaying, likeReply).1
    {
      ghost var b := Snapshot();
      ghost var log := bus.log;
      var state := if isPlaying then Playing else Paused;
      if playbackState != state {
        playbackState := state;
        bus.Send(PlaybackStateChanged(state));
      }
      assert Snapshot() == b.(playbackState := state);
      assert bus.log == log + if b.playbackState != state then [PlaybackStateChanged(state)] else [];
      StoreMedia(info, likeReply);
    }

    /** The second half of `updateState`: store the info if it is news and announce it. */
    method StoreMedia(info: MediaInfo, likeReply: Option<string>)
      modifies this, bus
      ensures Snapshot() == MediaStep(old(Snapshot()), info, likeReply).0
      ensures bus.log == old(bus.log) + MediaStep(old(Snapshot()), info, likeReply).1
    {
      if nowPlaying.None? || !SameMedia(nowPlaying.value, info) {
        nowPlaying := Some(info);
        bus.Send(MediaChanged(info));
        CheckLikeStatus(likeReply);
      } else if nowPlaying.value.elapsedTime != info.elapsedTime {
        nowPlaying := Some(info);
        bus.Send(MediaChanged(info));
      }
    }

    /** `fetchArtworkFromURL(_:cacheKey:)`: returns the URL it starts downloading, if any. */
    method FetchArtworkFromURL(url: string, key: string) returns (download: Option<string>)
      modifies this
      ensures (Snapshot(), download) == FetchArtworkStep(old(Snapshot()), url, key)
    {
      if key == lastArtworkCacheKey {
        return None;
      }
      lastArtworkCacheKey := key;
      currentArtwork := None;
      download := Some(OptimizeArtworkURL(url));
    }

    /** `fetchSpotifyInfo()`. */
    method FetchSpotifyInfo(w: World) returns (download: Option<string>)
      modifies this, bus
      ensures var o := SpotifyStep(old(Snapshot()), ReadSpotify(w.reply, w.number, w.url), w);
        Snapshot() == o.bridge && bus.log == old(bus.log) + o.events && download == o.download
    {
      download := None;
      var r := ReadSpotify(w.reply, w.number, w.url);
      match r
      case NotRunning =>
        if activePlayer == Some(Spotify) {
          activePlayer := None;
          DetectActivePlayer(w.spotifyRunning, w.musicRunning);
        }
      case Malformed(_) =>
      case Track(info, isPlaying) =>
        var key := info.artist + "-" + info.album;
        if w.cached.Some? {
          currentArtwork := w.cached;
        } else if info.artworkURL.Some? {
          download := FetchArtworkFromURL(info.artworkURL.value, key);
        }
        UpdateState(info, isPlaying, w.likeReply);
    }

    /** `fetchAppleMusicInfo()`. */
    method FetchAppleMusicInfo(w: World)
      modifies this, bus
      ensures var o := MusicStep(old(Snapshot()), ReadMusic(w.reply, w.number), w);
        Snapshot() == o.bridge && bus.log == old(bus.log) + o.events
    {
      var r := ReadMusic(w.reply, w.number);
      match r
      case NotRunning =>
        if activePlayer == Some(AppleMusic) {
          activePlayer := None;
          DetectActivePlayer(w.spotifyRunning, w.musicRunning);
        }
      case Malformed(_) =>
      case Track(info, isPlaying) =>
        var artwork := w.cached;
        if artwork.None? {
          artwork := w.scriptArtwork;
        }
        currentArtwork := artwork;
        UpdateState(info, isPlaying, w.likeReply);
    }

    /** `pollNowPlaying()`. */
    method PollNowPlaying(w: World) returns (download: Option<string>)
      modifies this, bus
      ensures var o := PollStep(old(Snapshot()), w);
        Snapshot() == o.bridge && bus.log == old(bus.log) + o.events && download == o.download
    {
      download := None;
      if activePlayer.None? {
        DetectActivePlayer(w.spotifyRunning, w.musicRunning);
      }
      match activePlayer
      case None =>
      case Some(Spotify) =>
        download := FetchSpotifyInfo(w);
      case Some(AppleMusic) =>
        FetchAppleMusicInfo(w);
    }

    /** `togglePlayPause()`: returns the script it runs, if any. */
    method TogglePlayPause() returns (script: Option<string>)
      modifies this, bus
      ensures Snapshot() == TogglePlayPauseStep(old(Snapshot())).0
      ensures bus.log == old(bus.log) + TogglePlayPauseStep(old(Snapshot())).1
      ensures script == TogglePlayPauseStep(old(Snapshot())).2
    {
      if activePlayer.None? {
        return None;
      }
      script := Some(PlayPauseScript(activePlayer.value, playbackState));
      var state := if playbackState == Playing then Paused else Playing;
      playbackState := state;
      bus.Send(PlaybackStateChanged(state));
    }

    /** `toggleLike()`: returns the script it runs, if any. */
    method ToggleLike() returns (script: Option<string>)
      modifies this
      ensures (Snapshot(), script) == ToggleLikeStep(old(Snapshot()))
    {
      if activePlayer.None? {
        return None;
      }
      var liked := !isLiked;
      var value := if liked then "true" else "false";
      match activePlayer.value {
        case Spotify =>
          script := Some("tell application \"Spotify\" to set starred of current track to " + value);
        case AppleMusic =>
          script := Some("tell application \"Music\" to set favorited of current track to " + value);
      }
      isLiked := liked;
    }

    /** The termination observer for either player. */
    method OnPlayerTerminated(spotifyRunning: bool, musicRunning: bool)
      modifies this, bus
      ensures Snapshot() == TerminatedStep(old(Snapshot()), spotifyRunning, musicRunning).0
      ensures bus.log == old(bus.log) + TerminatedStep(old(Snapshot()), spotifyRunning, musicRunning).1
    {
      DetectActivePlayer(spotifyRunning, musicRunning);
      if activePlayer.None? {
        nowPlaying := None;
        playbackState := Stopped;
        bus.Send(PlaybackStateChanged(Stopped));
      }
    }
  }
}
