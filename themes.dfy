// The theme engine (NotchApp/Sources/Core/Theme/ThemeEngine.swift): which
// theme a stored name selects, how choosing a theme persists its name, and
// how the album-art theme follows the media bridge's artwork through a
// subscription and background palette extractions.
//
// The stored preference is a field of the engine. The artwork subscription
// and every background extraction carry numbers issued by a counter; an
// extraction finishing is an explicit step that names the pending request,
// in whatever order the scheduler runs them. Rendering an image into its
// thumbnail is a CoreImage call and is an input, `render`.
module Themes {
  import opened Wrappers
  import opened Text
  import opened Events
  import ColorExtractor
  import MediaBridge

  /** The four themes; the album-art theme has the palette it was built from, if any. */
  datatype Theme = DefaultTheme | DarkTheme | LightTheme | AlbumArtTheme(palette: Option<ColorExtractor.Palette>)

  const DefaultName := "default"
  const AlbumArtName := "albumart"

  // ---------------------------------------------------------------------------
  // Names
  // ---------------------------------------------------------------------------

  /** `themeForName(_:)`. */
  function ThemeForName(name: string): Theme
  {
    var n := Lower(name);
    if n == "dark" then DarkTheme
    else if n == "light" then LightTheme
    else if n == AlbumArtName then AlbumArtTheme(None)
    else DefaultTheme
  }

  lemma LowerIdempotent(s: string)
    ensures Lower(Lower(s)) == Lower(s)
  {
    forall i | 0 <= i < |s| ensures Lower(Lower(s))[i] == Lower(s)[i] {
      assert LowerChar(LowerChar(s[i])) == LowerChar(s[i]);
    }
  }

  /**
   * Names select themes ignoring case: "dark", "light" and "albumart" in any
   * case pick their theme, every other name the default theme.
   */
  lemma ThemeForNameSpec(name: string)
    ensures ThemeForName(name) == ThemeForName(Lower(name))
    ensures ThemeForName(name) == DarkTheme <==> Lower(name) == "dark"
    ensures ThemeForName(name) == LightTheme <==> Lower(name) == "light"
    ensures ThemeForName(name) == AlbumArtTheme(None) <==> Lower(name) == AlbumArtName
    ensures ThemeForName(name) == DefaultTheme <==> Lower(name) !in {"dark", "light", AlbumArtName}
  {
    LowerIdempotent(name);
  }

  /** Mixed-case names select their theme. */
  lemma MixedCaseNames()
    ensures ThemeForName("Dark") == DarkTheme
    ensures ThemeForName("AlbumArt") == AlbumArtTheme(None)
  {
    assert Lower("Dark") == "dark";
    assert Lower("AlbumArt") == AlbumArtName;
  }

  // ---------------------------------------------------------------------------
  // The engine as a value
  // ---------------------------------------------------------------------------

  /** A background palette extraction for `image`, under number `ticket`. */
  datatype Request = Request(image: ImageId, ticket: nat)

  /** The rendered thumbnail of an image. */
  datatype Thumbnail = Thumbnail(pixels: seq<ColorExtractor.Pixel>, width: nat, height: nat)

  /**
   * The current theme, the stored name, the artwork subscription's number
   * and every subscription not yet cancelled, the next number to issue, the
   * extractions still running, and the request whose result may still be
   * applied (the guard of the corrected completion; the source has none).
   */
  datatype Engine = Engine(current: Theme, stored: Option<string>, subscription: Option<nat>,
                           live: set<nat>, nextId: nat, pending: seq<Request>, latest: Option<nat>)

  /** Numbers are issued once; the only live subscription is the one the engine holds. */
  predicate Inv(e: Engine)
  {
    (e.subscription.None? ==> e.live == {})
    && (e.subscription.Some? ==> e.live == {e.subscription.value} && e.subscription.value < e.nextId)
    && (e.latest.Some? ==> e.latest.value < e.nextId)
    && forall k :: 0 <= k < |e.pending| ==> e.pending[k].ticket < e.nextId
  }

  /** `currentThemeName`. */
  function CurrentThemeName(e: Engine): string
  {
    e.stored.GetOr(DefaultName)
  }

  /** `applyArtworkTheme(from:)`: starts an extraction. */
  function RequestStep(e: Engine, image: ImageId): Engine
  {
    e.(pending := e.pending + [Request(image, e.nextId)], latest := Some(e.nextId), nextId := e.nextId + 1)
  }

  /** `stopArtworkObservation()`. */
  function StopStep(e: Engine): Engine
  {
    e.(subscription := None, live := if e.subscription.Some? then e.live - {e.subscription.value} else e.live,
       latest := None)
  }

  /** `startArtworkObservation()`, with the bridge's current artwork. */
  function StartStep(e: Engine, artwork: Option<ImageId>): Engine
  {
    var stopped := StopStep(e);
    var applied := if artwork.Some? then RequestStep(stopped, artwork.value) else stopped;
    applied.(subscription := Some(applied.nextId), live := applied.live + {applied.nextId}, nextId := applied.nextId + 1)
  }

  /** The subscription's sink receiving a new artwork value. */
  function PublishStep(e: Engine, artwork: Option<ImageId>): Engine
  {
    if e.subscription.None? then e
    else if artwork.Some? then RequestStep(e, artwork.value)
    else e.(current := AlbumArtTheme(None), latest := None)
  }

  /** `setTheme(_:name:)`. */
  function SetThemeStep(e: Engine, theme: Theme, name: string, artwork: Option<ImageId>): Engine
  {
    var chosen := e.(current := theme, stored := Some(name));
    if name == AlbumArtName then StartStep(chosen, artwork) else StopStep(chosen)
  }

  /** `init()`, from the stored name and the bridge's current artwork. */
  function InitialEngine(saved: Option<string>, artwork: Option<ImageId>): Engine
  {
    var name := saved.GetOr(DefaultName);
    var e := Engine(ThemeForName(name), saved, None, {}, 0, [], None);
    if name == AlbumArtName then StartStep(e, artwork) else e
  }

  function Remove(pending: seq<Request>, k: nat): seq<Request>
    requires k < |pending|
  {
    pending[..k] + pending[k + 1..]
  }

  /** The palette an extraction computes. */
  function PaletteFor(render: ImageId -> Thumbnail, image: ImageId): ColorExtractor.Palette
  {
    ColorExtractor.PaletteOf(render(image).pixels, render(image).width, render(image).height)
  }

  /** An extraction finishing as the source has it: its palette becomes the theme, whatever happened since. */
  function FinishAsWritten(e: Engine, k: nat, render: ImageId -> Thumbnail): Engine
    requires k < |e.pending|
  {
    e.(current := AlbumArtTheme(Some(PaletteFor(render, e.pending[k].image))), pending := Remove(e.pending, k))
  }

  /** An extraction finishing, applied only when it is the latest request of the running observation. */
  function FinishStep(e: Engine, k: nat, render: ImageId -> Thumbnail): Engine
    requires k < |e.pending|
  {
    var r := e.pending[k];
    var rest := e.(pending := Remove(e.pending, k));
    if e.latest == Some(r.ticket) then rest.(current := AlbumArtTheme(Some(PaletteFor(render, r.image))))
    else rest
  }

  // ---------------------------------------------------------------------------
  // What choosing a theme does
  // ---------------------------------------------------------------------------

  lemma StartKeepsInv(e: Engine, artwork: Option<ImageId>)
    requires Inv(e)
    ensures Inv(StartStep(e, artwork))
  {
    var stopped := StopStep(e);
    assert Inv(stopped);
    var applied := if artwork.Some? then RequestStep(stopped, artwork.value) else stopped;
    assert Inv(applied);
  }

  /**
   * Choosing a theme makes it current and stores its name, which
   * `currentThemeName` then reports; artwork is observed afterwards exactly
   * when the name is "albumart", spelled in lower case, and then through one
   * live subscription.
   */
  lemma SetThemeSpec(e: Engine, theme: Theme, name: string, artwork: Option<ImageId>)
    requires Inv(e)
    ensures var s := SetThemeStep(e, theme, name, artwork);
      Inv(s) && s.current == theme && s.stored == Some(name) && CurrentThemeName(s) == name
      && (s.subscription.Some? <==> name == AlbumArtName)
      && |s.live| <= 1
  {
    var chosen := e.(current := theme, stored := Some(name));
    if name == AlbumArtName {
      StartKeepsInv(chosen, artwork);
    }
  }

  /**
   * Startup selects the stored name's theme (the default theme when none is
   * stored), reports that name, and observes artwork only for exactly
   * "albumart"; with artwork already showing, its extraction starts.
   */
  lemma InitialEngineSpec(saved: Option<string>, artwork: Option<ImageId>)
    ensures var e := InitialEngine(saved, artwork);
      var name := saved.GetOr(DefaultName);
      Inv(e) && e.current == ThemeForName(name) && CurrentThemeName(e) == name
      && (e.subscription.Some? <==> name == AlbumArtName)
      && (name == AlbumArtName && artwork.Some? ==> e.pending == [Request(artwork.value, 0)])
      && (name != AlbumArtName || artwork.None? ==> e.pending == [])
  {
    var name := saved.GetOr(DefaultName);
    if name == AlbumArtName {
      StartKeepsInv(Engine(ThemeForName(name), saved, None, {}, 0, [], None), artwork);
    }
  }

  /** "AlbumArt" selects the album-art theme but, not being spelled exactly "albumart", starts no observation. */
  lemma MixedCaseAlbumArtNotObserved(e: Engine, artwork: Option<ImageId>)
    requires Inv(e)
    ensures var s := SetThemeStep(e, ThemeForName("AlbumArt"), "AlbumArt", artwork);
      s.current == AlbumArtTheme(None) && s.subscription.None? && s.live == {}
  {
    MixedCaseNames();
    assert "AlbumArt" != AlbumArtName by { assert "AlbumArt"[0] != AlbumArtName[0]; }
  }

  /** A new artwork value starts its extraction; losing the artwork reverts to the plain album-art theme. */
  lemma PublishSpec(e: Engine, artwork: Option<ImageId>)
    requires Inv(e)
    ensures var s := PublishStep(e, artwork);
      Inv(s)
      && (e.subscription.None? ==> s == e)
      && (e.subscription.Some? && artwork.Some? ==>
            s.pending == e.pending + [Request(artwork.value, e.nextId)] && s.current == e.current)
      && (e.subscription.Some? && artwork.None? ==> s.current == AlbumArtTheme(None) && s.pending == e.pending)
  {
  }

  // ---------------------------------------------------------------------------
  // Runs
  // ---------------------------------------------------------------------------

  datatype ThemeOp = SetTheme(theme: Theme, name: string, artwork: Option<ImageId>)
                   | Publish(artwork: Option<ImageId>)
                   | Finish(k: nat)

  function Apply(e: Engine, op: ThemeOp, render: ImageId -> Thumbnail): Engine
  {
    match op
    case SetTheme(theme, name, artwork) => SetThemeStep(e, theme, name, artwork)
    case Publish(artwork) => PublishStep(e, artwork)
    case Finish(k) => if k < |e.pending| then FinishStep(e, k, render) else e
  }

  function Run(e: Engine, ops: seq<ThemeOp>, render: ImageId -> Thumbnail): Engine
  {
    if ops == [] then e else Apply(Run(e, ops[..|ops| - 1], render), ops[|ops| - 1], render)
  }

  lemma ApplyKeepsInv(e: Engine, op: ThemeOp, render: ImageId -> Thumbnail)
    requires Inv(e)
    ensures Inv(Apply(e, op, render))
  {
    match op
    case SetTheme(theme, name, artwork) => SetThemeSpec(e, theme, name, artwork);
    case Publish(artwork) => PublishSpec(e, artwork);
    case Finish(k) =>
      if k < |e.pending| {
        var rest := Remove(e.pending, k);
        forall j | 0 <= j < |rest| ensures rest[j].ticket < e.nextId {
          assert rest[j] == if j < k then e.pending[j] else e.pending[j + 1];
        }
      }
  }

  /** The completion as written keeps the subscription invariant too: the race is about the theme only. */
  lemma FinishAsWrittenKeepsInv(e: Engine, k: nat, render: ImageId -> Thumbnail)
    requires Inv(e) && k < |e.pending|
    ensures Inv(FinishAsWritten(e, k, render))
    ensures FinishAsWritten(e, k, render).(current := e.current) == FinishStep(e, k, render).(current := e.current)
  {
    var rest := Remove(e.pending, k);
    forall j | 0 <= j < |rest| ensures rest[j].ticket < e.nextId {
      assert rest[j] == if j < k then e.pending[j] else e.pending[j + 1];
    }
  }

  /** Every run keeps at most one artwork subscription alive. */
  lemma {:induction false} RunKeepsInv(e: Engine, ops: seq<ThemeOp>, render: ImageId -> Thumbnail)
    requires Inv(e)
    ensures Inv(Run(e, ops, render)) && |Run(e, ops, render).live| <= 1
  {
    if ops != [] {
      RunKeepsInv(e, ops[..|ops| - 1], render);
      ApplyKeepsInv(Run(e, ops[..|ops| - 1], render), ops[|ops| - 1], render);
    }
  }

  /**
   * Once a theme other than "albumart" is chosen, later artwork values and
   * extractions still finishing leave it current.
   */
  lemma {:induction false} ChosenThemeStays(e: Engine, theme: Theme, name: string, artwork: Option<ImageId>,
                                            ops: seq<ThemeOp>, render: ImageId -> Thumbnail)
    requires name != AlbumArtName
    requires forall j :: 0 <= j < |ops| ==> !ops[j].SetTheme?
    ensures Run(SetThemeStep(e, theme, name, artwork), ops, render).current == theme
    ensures Run(SetThemeStep(e, theme, name, artwork), ops, render).subscription.None?
    ensures Run(SetThemeStep(e, theme, name, artwork), ops, render).latest.None?
  {
    if ops != [] {
      ChosenThemeStays(e, theme, name, artwork, ops[..|ops| - 1], render);
    }
  }

  /** With the corrected completion, an extraction changes the theme only if it is the latest request, and then to its image's palette. */
  lemma FinishSpec(e: Engine, k: nat, render: ImageId -> Thumbnail)
    requires k < |e.pending|
    ensures var s := FinishStep(e, k, render);
      s.pending == Remove(e.pending, k)
      && (e.latest == Some(e.pending[k].ticket) ==> s.current == AlbumArtTheme(Some(PaletteFor(render, e.pending[k].image))))
      && (e.latest != Some(e.pending[k].ticket) ==> s.current == e.current)
  {
  }

  /**
   * As written, an extraction started while "albumart" was chosen still
   * replaces the theme after the user has switched to the dark theme, though
   * the stored name says "dark".
   */
  lemma StaleExtractionOverrides(image: ImageId, render: ImageId -> Thumbnail)
    ensures var started := InitialEngine(Some(AlbumArtName), Some(image));
      var switched := SetThemeStep(started, DarkTheme, "dark", Some(image));
      |switched.pending| == 1
      && CurrentThemeName(FinishAsWritten(switched, 0, render)) == "dark"
      && FinishAsWritten(switched, 0, render).current != DarkTheme
      && FinishStep(switched, 0, render).current == DarkTheme
  {
    InitialEngineSpec(Some(AlbumArtName), Some(image));
    assert "dark" != AlbumArtName;
  }

  // ---------------------------------------------------------------------------
  // The engine object
  // ---------------------------------------------------------------------------

  class ThemeEngine {
    var currentTheme: Theme
    /** The `selectedTheme` entry of the user's defaults. */
    var stored: Option<string>
    var artworkSubscription: Option<nat>
    var live: set<nat>
    var nextId: nat
    var pending: seq<Request>
    var latest: Option<nat>

    function Snapshot(): Engine
      reads this
    {
      Engine(currentTheme, stored, artworkSubscription, live, nextId, pending, latest)
    }

    constructor (saved: Option<string>, bridge: MediaBridge.MediaBridge)
      ensures Snapshot() == InitialEngine(saved, bridge.currentArtwork)
    {
      var name := saved.GetOr(DefaultName);
      currentTheme := ThemeForName(name);
      stored := saved;
      artworkSubscription := None;
      live := {};
      nextId := 0;
      pending := [];
      latest := None;
      new;
      if name == AlbumArtName {
        StartArtworkObservation(bridge);
      }
    }

    /** `setTheme(_:name:)`. */
    method SetTheme(theme: Theme, name: string, bridge: MediaBridge.MediaBridge)
      modifies this
      ensures Snapshot() == SetThemeStep(old(Snapshot()), theme, name, bridge.currentArtwork)
    {
      currentTheme := theme;
      stored := Some(name);
      if name == AlbumArtName {
        StartArtworkObservation(bridge);
      } else {
        StopArtworkObservation();
      }
    }

    /** `currentThemeName`. */
    method CurrentName() returns (name: string)
      ensures name == CurrentThemeName(Snapshot())
    {
      name := stored.GetOr(DefaultName);
    }

    method StartArtworkObservation(bridge: MediaBridge.MediaBridge)
      modifies this
      ensures Snapshot() == StartStep(old(Snapshot()), bridge.currentArtwork)
    {
      StopArtworkObservation();
      if bridge.currentArtwork.Some? {
        ApplyArtworkTheme(bridge.currentArtwork.value);
      }
      artworkSubscription := Some(nextId);
      live := live + {nextId};
      nextId := nextId + 1;
    }

    method StopArtworkObservation()
      modifies this
      ensures Snapshot() == StopStep(old(Snapshot()))
    {
      if artworkSubscription.Some? {
        live := live - {artworkSubscription.value};
      }
      artworkSubscription := None;
      latest := None;
    }

    /** `applyArtworkTheme(from:)`: the detached extraction is recorded as pending. */
    method ApplyArtworkTheme(image: ImageId)
      modifies this
      ensures Snapshot() == RequestStep(old(Snapshot()), image)
    {
      pending := pending + [Request(image, nextId)];
      latest := Some(nextId);
      nextId := nextId + 1;
    }

    /** The `$currentArtwork` sink. */
    method OnArtworkPublished(artwork: Option<ImageId>)
      modifies this
      ensures Snapshot() == PublishStep(old(Snapshot()), artwork)
    {
      if artworkSubscription.None? {
        return;
      }
      if artwork.Some? {
        ApplyArtworkTheme(artwork.value);
      } else {
        currentTheme := AlbumArtTheme(None);
        latest := None;
      }
    }

    /**
     * Pending extraction `k` finishes and returns to the main actor, with the
     * corrected completion; the source's unconditional one is FinishAsWritten.
     */
    method FinishExtraction(k: nat, render: ImageId -> Thumbnail)
      requires k < |pending|
      modifies this
      ensures Snapshot() == FinishStep(old(Snapshot()), k, render)
    {
      var r := pending[k];
      pending := Remove(pending, k);
      if latest == Some(r.ticket) {
        currentTheme := AlbumArtTheme(Some(PaletteFor(render, r.image)));
      }
    }
  }
}
