# Mangtch notch engine, modelled in Dafny

Mangtch is a macOS menu-bar app. It turns the camera notch into an interactive panel. This project models the panel's engine:

- the three-state panel state machine and its hover debounce (`NotchViewModel`);
- notch geometry detection (`NotchGeometry.detect`) and the window frame;
- pointer and keyboard gesture classification (`GestureHandler`);
- the event bus;
- the native HUD suppressor;
- the display-link frame clock.

It also models the widgets around the engine:

- the widget registry;
- the HUD, music player, timer, downloads and file shelf view-models;
- the media bridge that polls Spotify and Music;
- the album-art colour extractor;
- the theme engine;
- the global shortcut manager.

Each modelled Swift source file becomes one Dafny module. Three helper modules have no Swift file of their own: `Wrappers` (the option type), `Text` (digits, padding, splitting, trimming and lower-casing) and `ClockFace` (reading "H:MM:SS" faces back). Where the Swift code updates an object's fields, the module has a `class` with those fields. Each method's `ensures` states the object's whole new state, in one of two styles:

- Most classes have a `Snapshot()` of their state and pure step functions beside it. Every method's `ensures` ties the new snapshot to the step function applied to the old one. These are `NotchViewModel`, `SystemHUDSuppressor`, `DisplayLinkManager`, `HUDViewModel`, `MusicPlayerViewModel`, `MediaBridge`, `ShortcutManager`, `ThemeEngine` and `TimerViewModel`.
- `FileShelfViewModel`, `DownloadViewModel`, `WidgetRegistry`, `NotchWindow`, `GestureHandler`, `OSDHelper` and the bus have no snapshot. Their methods state each field's new value, or that it is unchanged, in terms of pure functions of the old fields.

Where the object posts on the event bus, the `ensures` also says exactly which events are appended to the bus log. The lemmas about the pure functions state the properties:

- transition tables;
- invariants kept over every sequence of operations;
- round trips;
- ordering and frequency of the extracted palette;
- the error paths.

Everything the system supplies becomes a parameter of the operation that reads it. This covers screen frames, clocks, file-system facts, AppleScript replies, permission and launch outcomes, and rendered thumbnails. Timers and debounces are pending flags or numbered pending steps, fired by an explicit call. Concurrency is sequential; the order in which background work finishes is chosen by the caller.

`collapse()` requests `.hovering`, not `.idle` (NotchApp/Sources/Core/NotchWindow/NotchViewModel.swift:70-74). The initial state is also `.hovering`. The model follows the code:

- `Panel.StepNeverEntersIdle` and `Panel.IdleUnreachable` show that `.idle` is never reached.
- `Panel.CollapseRestsOnHovering` shows where a collapse lands.

This conflicts with the unit tests (NotchApp/Tests/MangtchTests/NotchViewModelTests.swift:14-19, 52-71), which expect `collapse()` to yield `.idle`.

## Model

| member | source | states |
|---|---|---|
| Events.SameMediaIgnoresPlaybackFields | NotchApp/Sources/Core/EventBus/EventBus.swift:29-31 | MediaInfo equality ignores the elapsed time, artwork, artwork URL and bundle identifier |
| Events.SameMediaIsEquivalence | NotchApp/Sources/Core/EventBus/EventBus.swift:29-31 | MediaInfo equality is reflexive, symmetric and transitive |
| Events.Bus.constructor | NotchApp/Sources/Core/EventBus/EventBus.swift:64-67 | a new bus has sent nothing |
| Events.Bus.Send | NotchApp/Sources/Core/EventBus/EventBus.swift:73-75 | `send` appends the event after all earlier ones and changes nothing already sent |
| Events.SendDelivers | NotchApp/Sources/Core/EventBus/EventBus.swift:73-75 | after a `send`, every subscriber that subscribed before it has received exactly that event after the ones it already had |
| Events.Bus.Subscribe | NotchApp/Sources/Core/EventBus/EventBus.swift:67-71 | a subscriber starts at the current end of the log and has received nothing: the pass-through subject replays nothing sent before |
| Events.ProjectAppend | NotchApp/Sources/Core/EventBus/EventBus.swift:78-83 | `compactMap` over two batches is the first batch's projection followed by the second's |
| Events.ProjectMember | NotchApp/Sources/Core/EventBus/EventBus.swift:78-83 | a value is on a typed stream exactly when some sent event extracts to it |
| Events.StateChangesExact | NotchApp/Sources/Core/EventBus/EventBus.swift:86-91 | `stateChanges` carries exactly the states of the `stateChanged` events |
| Events.MediaChangesExact | NotchApp/Sources/Core/EventBus/EventBus.swift:94-99 | `mediaChanges` carries exactly the infos of the `mediaChanged` events |
| Events.HUDTriggersExact | NotchApp/Sources/Core/EventBus/EventBus.swift:102-107 | `hudTriggers` carries exactly the (type, value) pairs of the `hudTriggered` events |
| Events.PlaybackChangesExact | NotchApp/Sources/Core/EventBus/EventBus.swift:110-115 | `playbackChanges` carries exactly the states of the `playbackStateChanged` events |
| Events.StateChangesAfterSend | NotchApp/Tests/MangtchTests/EventBusTests.swift:41-45 | a non-state event adds nothing to `stateChanges`; a `stateChanged(s)` event appends `s` |
| Shape.Detect | NotchApp/Sources/Core/NotchWindow/NotchShape.swift:156-217 | no screen gives the 1440x900 placeholder; a notch exists exactly when the top safe-area inset is positive, and then its band lies between the two auxiliary areas or, when either is missing or `.zero`, is a 180-point band centred on the screen; without a notch it is a floating 200x8 pill centred on the screen |
| Shape.FloatingExcludesNotch | NotchApp/Sources/Core/NotchWindow/NotchShape.swift:190-215 | floating mode never coexists with a notch |
| Shape.FlagsComplementaryWithScreen | NotchApp/Sources/Core/NotchWindow/NotchShape.swift:159-215 | with a screen exactly one of `hasNotch` and `isFloatingMode` holds; without one neither does |
| Shape.DetectedHeightPositive | NotchApp/Sources/Core/NotchWindow/NotchShape.swift:169-203 | the notch height is never negative and is positive whenever there is a screen |
| Shape.DetectedBandCentredOrBetweenAreas | NotchApp/Sources/Core/NotchWindow/NotchShape.swift:180-188 | the estimated and floating bands are centred on the screen with positive width; a band between auxiliary areas has positive width exactly when the left area ends before the right one starts |
| Panel.WingsOutsideIdle | NotchApp/Sources/Core/NotchWindow/NotchViewModel.swift:122-131 | the panel is wider than the notch (by two 120-point wings) exactly when it is not idle |
| Panel.TallOnlyWhenExpanded | NotchApp/Sources/Core/NotchWindow/NotchViewModel.swift:122-131 | the content height is positive exactly when expanded, and never above 180 |
| Panel.StepFollowsTable | NotchApp/Sources/Core/NotchWindow/NotchViewModel.swift:90-116 | every operation either changes nothing and sends nothing, or makes a move of the five-entry table, records the old state as `previousState` and sends exactly one `stateChanged` with the new state |
| Panel.StepKeepsInv | NotchApp/Sources/Core/NotchWindow/NotchViewModel.swift:51-59 | every operation keeps the hover debounce pending only while idle |
| Panel.StepNeverEntersIdle | NotchApp/Sources/Core/NotchWindow/NotchViewModel.swift:51-86 | no operation moves into idle |
| Panel.RunIsWalk | NotchApp/Sources/Core/NotchWindow/NotchViewModel.swift:108-115 | the events of any run are all `stateChanged`, each a legal move from the previous one, and the last names the current state |
| Panel.RunKeepsInv | NotchApp/Sources/Core/NotchWindow/NotchViewModel.swift:51-86 | any run keeps the debounce pending only while idle |
| Panel.IdleUnreachable | NotchApp/Sources/Core/NotchWindow/NotchViewModel.swift:12 | from any non-idle state, in particular the initial hovering, no run of operations reaches idle |
| Panel.CollapseRestsOnHovering | NotchApp/Sources/Core/NotchWindow/NotchViewModel.swift:70-74 | `collapse()` ends hovering from every state, with the debounce cancelled |
| Panel.HoverThenCollapseHovers | NotchApp/Sources/Core/NotchWindow/NotchViewModel.swift:51-74 | from idle, hover then collapse before the debounce fires ends hovering and announces it once |
| Panel.DebounceFiresOnce | NotchApp/Sources/Core/NotchWindow/NotchViewModel.swift:51-59 | two hovers restart one debounce; it moves to hovering once and a second firing does nothing |
| Panel.ToggleTwiceReturns | NotchApp/Sources/Core/NotchWindow/NotchViewModel.swift:77-86 | from hovering, two toggles expand and come back, announcing both moves |
| Panel.ExpandOnlyFromHovering | NotchApp/Sources/Core/NotchWindow/NotchViewModel.swift:62-67 | `expand()` acts only from hovering and then expands; toggling does nothing while idle |
| Panel.NotchViewModel.constructor | NotchApp/Sources/Core/NotchWindow/NotchViewModel.swift:41-46 | starts hovering with the detected geometry, HUD hidden and dimensions set for hovering |
| Panel.NotchViewModel.UpdatePanelDimensions | NotchApp/Sources/Core/NotchWindow/NotchViewModel.swift:118-134 | height and width become those of the current state; nothing else changes |
| Panel.NotchViewModel.PerformTransition | NotchApp/Sources/Core/NotchWindow/NotchViewModel.swift:90-116 | the machine takes the transition step, the log gains its events, and the dimensions follow the new state |
| Panel.NotchViewModel.Hover | NotchApp/Sources/Core/NotchWindow/NotchViewModel.swift:51-59 | takes the hover step and keeps the object valid |
| Panel.NotchViewModel.FireHoverDebounce | NotchApp/Sources/Core/NotchWindow/NotchViewModel.swift:54-58 | the uncancelled debounce task performs the move to hovering |
| Panel.NotchViewModel.Expand | NotchApp/Sources/Core/NotchWindow/NotchViewModel.swift:62-67 | takes the expand step and sends its events |
| Panel.NotchViewModel.Collapse | NotchApp/Sources/Core/NotchWindow/NotchViewModel.swift:70-74 | takes the collapse step and sends its events |
| Panel.NotchViewModel.ToggleExpand | NotchApp/Sources/Core/NotchWindow/NotchViewModel.swift:77-86 | takes the toggle step and sends its events |
| Panel.NotchViewModel.OnHUDTriggered | NotchApp/Sources/Core/NotchWindow/NotchViewModel.swift:146-154 | a HUD trigger marks the HUD visible and changes nothing else |
| Panel.NotchViewModel.SetHUDHidden | NotchApp/Sources/Core/NotchWindow/NotchViewModel.swift:157-159 | marks the HUD hidden and changes nothing else |
| Panel.NotchViewModel.OnScreenParametersChanged | NotchApp/Sources/Core/NotchWindow/NotchViewModel.swift:163-172 | re-detects the geometry, resizes for the unchanged state and sends `screenChanged` |
| Window.FrameAnchoredTopCentre | NotchApp/Sources/Core/NotchWindow/NotchWindow.swift:115-124 | the window is centred on the first screen and its top edge is the screen's top, 25 points lower in floating mode |
| Window.FrameHoldsPanel | NotchApp/Sources/Core/NotchWindow/NotchWindow.swift:99-113 | for the dimensions the view-model keeps, the window contains the visible panel in every state with at least 20 points free on each side and exactly the margin (30 expanded, 10 otherwise) plus the HUD's 50 free below |
| Window.FrameWidthIgnoresState | NotchApp/Sources/Core/NotchWindow/NotchWindow.swift:105-113 | the window width does not depend on the state or the content height |
| Window.HUDWidensFrame | NotchApp/Sources/Core/NotchWindow/NotchWindow.swift:101-113 | a visible HUD makes the window at least 320 wide, never narrower, and 50 taller |
| Window.NotchWindow.constructor | NotchApp/Sources/Core/NotchWindow/NotchWindow.swift:13-39 | a new window has no frame, takes mouse events, is not shown and observes nothing |
| Window.NotchWindow.UpdateWindowFrame | NotchApp/Sources/Core/NotchWindow/NotchWindow.swift:94-126 | with a first screen the frame becomes the computed frame for the view-model's values; without one it is left alone |
| Window.NotchWindow.Setup | NotchApp/Sources/Core/NotchWindow/NotchWindow.swift:44-87 | no screen schedules a retry and changes nothing else; a geometry with neither notch nor floating mode stops before the frame is set; otherwise the frame is set, the window shown and the observers installed; mouse handling is untouched |
| Window.NotchWindow.HandleStateChange | NotchApp/Sources/Core/NotchWindow/NotchWindow.swift:139-153 | the window takes mouse events in every state and is resized; visibility, observers and a pending retry are untouched |
| Window.NotchWindow.OnDimensionsChanged | NotchApp/Sources/Core/NotchWindow/NotchWindow.swift:157-192 | a change of panel width, content height or HUD visibility resizes the window, the observation stays installed, and nothing else changes |
| Gestures.NotchZoneWithinHoverZone | NotchApp/Sources/Core/Gesture/GestureHandler.swift:144-157 | the notch zone lies inside the hover zone |
| Gestures.PanelRectWithinExpandedZone | NotchApp/Sources/Core/Gesture/GestureHandler.swift:178-205 | the panel rectangle of the click handler lies inside the expanded zone of the move handler |
| Gestures.HoverZoneWithinExpandedZone | NotchApp/Sources/Core/Gesture/GestureHandler.swift:152-184 | with the expanded panel's width, the hover zone lies inside the expanded zone |
| Gestures.NoNotchNoMouseOps | NotchApp/Sources/Core/Gesture/GestureHandler.swift:141 | without a physical notch or a screen a mouse move calls nothing |
| Gestures.HoveringNeverExpandsAndCollapses | NotchApp/Sources/Core/Gesture/GestureHandler.swift:166-174 | for a notch of non-negative size, one move while hovering calls at most one of expand and collapse |
| Gestures.OverlappingAreasExpandAndCollapse | NotchApp/Sources/Core/Gesture/GestureHandler.swift:166-174 | with overlapping auxiliary areas (negative notch width) a single move calls expand and then collapse |
| Gestures.InsidePanelKeepsExpanded | NotchApp/Sources/Core/Gesture/GestureHandler.swift:176-209 | a pointer inside the expanded panel is left alone by moves and by clicks |
| Gestures.ClickCollapsesWithoutNotch | NotchApp/Sources/Core/Gesture/GestureHandler.swift:192-210 | the click handler does not check `hasNotch`: in floating mode a click outside the expanded panel collapses it |
| Gestures.EscapeCollapses | NotchApp/Sources/Core/Gesture/GestureHandler.swift:218-227 | key code 53 collapses exactly when not idle, any other key or idle does nothing, and from expanded it lands on hovering |
| Gestures.GestureHandler.constructor | NotchApp/Sources/Core/Gesture/GestureHandler.swift:9-16 | a new handler has no monitors and no suppressor |
| Gestures.GestureHandler.SetupSystemHUDSuppression | NotchApp/Sources/Core/Gesture/GestureHandler.swift:52-69 | with the setting off the old suppressor takes its stop step and is dropped, and with none the OSD helper is untouched; with it on, the OSD helper ends as a fresh suppressor's start leaves it; a start that fails (untrusted or no tap) keeps the previous suppressor, whose state differs only by where the OSD helper now stands, and one that succeeds keeps the fresh suppressor in its started state while the replaced one is only released, not stopped |
| Gestures.GestureHandler.Setup | NotchApp/Sources/Core/Gesture/GestureHandler.swift:31-35 | installs both monitors, then sets up suppression with every outcome stated for SetupSystemHUDSuppression |
| Gestures.GestureHandler.Teardown | NotchApp/Sources/Core/Gesture/GestureHandler.swift:37-48 | removes both monitors and stops and drops the suppressor; with no suppressor the OSD helper is untouched |
| Gestures.GestureHandler.HandleMouseMoved | NotchApp/Sources/Core/Gesture/GestureHandler.swift:137-190 | the view-model runs exactly the operations the zones call for, and the bus gains their events, and it keeps the notch geometry and the HUD-visibility flag |
| Gestures.GestureHandler.HandleGlobalClick | NotchApp/Sources/Core/Gesture/GestureHandler.swift:192-210 | the view-model runs exactly the click's operations, and it keeps the notch geometry and the HUD-visibility flag |
| Gestures.GestureHandler.HandleKeyDown | NotchApp/Sources/Core/Gesture/GestureHandler.swift:218-227 | the view-model runs exactly the key's operations, and it keeps the notch geometry and the HUD-visibility flag |
| HUDSuppression.KeyCodeOf | NotchApp/Sources/Core/Gesture/SystemHUDSuppressor.swift:110 | the media key code taken from bits 16-31 of `data1` is below 0x10000 |
| HUDSuppression.KeyStateOf | NotchApp/Sources/Core/Gesture/SystemHUDSuppressor.swift:111-112 | the key state taken from bits 8-15 of `data1` is below 0x100 |
| HUDSuppression.DecodeEncode | NotchApp/Sources/Core/Gesture/SystemHUDSuppressor.swift:109-113 | decoding a `data1` laid out as key code, key state and a low byte gives back the code and the state, whatever the low byte |
| HUDSuppression.HighBitsIgnored | NotchApp/Sources/Core/Gesture/SystemHUDSuppressor.swift:110-112 | bits above 31 of `data1` never affect the decoded code or state |
| HUDSuppression.Callback | NotchApp/Sources/Core/Gesture/SystemHUDSuppressor.swift:86-142 | the callback always returns the event unchanged; it re-enables the tap exactly on the two disabled types; it forwards exactly the system-defined subtype-8 events whose key is volume, brightness or backlight, as (code, state == 0x0A) |
| HUDSuppression.VolumeUpPressForwarded | NotchApp/Sources/Core/Gesture/SystemHUDSuppressor.swift:113-135 | a volume-up press as the system encodes it is forwarded as key 0, down |
| HUDSuppression.KeyReleaseForwardedAsUp | NotchApp/Sources/Core/Gesture/SystemHUDSuppressor.swift:113-135 | a release (state 0x0B) of a suppressible key is forwarded too, as not down |
| HUDSuppression.StartStopKeepInv | NotchApp/Sources/Core/Gesture/SystemHUDSuppressor.swift:69-190 | start and stop keep: a tap exactly with a run-loop source, a tap enabled, a hidden OSD means the helper is unloaded |
| HUDSuppression.StartReportsTap | NotchApp/Sources/Core/Gesture/SystemHUDSuppressor.swift:69-174 | `start` returns true exactly when a tap is installed afterwards; on a running suppressor it changes nothing |
| HUDSuppression.UntrustedStartChangesNothing | NotchApp/Sources/Core/Gesture/SystemHUDSuppressor.swift:72-76 | without accessibility trust `start` fails and leaves everything, the OSD included, alone |
| HUDSuppression.StartThenStopRestoresOSD | NotchApp/Sources/Core/Gesture/SystemHUDSuppressor.swift:176-190 | a start that hid the OSD followed by a stop returns to the initial state with the helper loaded |
| HUDSuppression.FailedStartLeavesOSDHidden | NotchApp/Sources/Core/Gesture/SystemHUDSuppressor.swift:146-157 | when the tap cannot be created after the OSD was hidden, start fails with the OSD still unloaded and stop cannot restore it |
| HUDSuppression.ReleaseLeavesOSDHidden | NotchApp/Sources/Core/Gesture/SystemHUDSuppressor.swift:176-199 | releasing a running suppressor that hid the OSD leaves the OSD hidden and the helper unloaded, where stopping it brings the OSD back |
| HUDSuppression.OSDHelper.constructor | NotchApp/Sources/Core/Gesture/SystemHUDSuppressor.swift:28-29 | the system's OSD helper starts loaded |
| HUDSuppression.SystemHUDSuppressor.constructor | NotchApp/Sources/Core/Gesture/SystemHUDSuppressor.swift:13-15 | a new suppressor has no tap, no source and the OSD not hidden, whatever the shared helper's state |
| HUDSuppression.SystemHUDSuppressor.HideNativeOSD | NotchApp/Sources/Core/Gesture/SystemHUDSuppressor.swift:23-41 | the new state is the hide step: unloads the helper once, only when `launchctl` runs |
| HUDSuppression.SystemHUDSuppressor.RestoreNativeOSD | NotchApp/Sources/Core/Gesture/SystemHUDSuppressor.swift:43-61 | the new state is the restore step |
| HUDSuppression.SystemHUDSuppressor.Start | NotchApp/Sources/Core/Gesture/SystemHUDSuppressor.swift:69-174 | the new state and the result are the start step's |
| HUDSuppression.SystemHUDSuppressor.Stop | NotchApp/Sources/Core/Gesture/SystemHUDSuppressor.swift:176-190 | the new state is the stop step's |
| HUDSuppression.SystemHUDSuppressor.Release | NotchApp/Sources/Core/Gesture/SystemHUDSuppressor.swift:192-199 | `deinit` disables a live tap and drops its source but leaves the OSD as it is |
| FrameClock.FrameDelta | NotchApp/Sources/Core/Animation/DisplayLinkManager.swift:113-126 | the first frame after a start gets a positive delta (the display's period or 1/60 s); every delta is non-negative |
| FrameClock.UnitTimebaseDelta | NotchApp/Sources/Core/Animation/DisplayLinkManager.swift:121-125 | with a one-to-one timebase the delta is the elapsed host time in seconds, with no rounding loss |
| FrameClock.SubscribeKeepsInv | NotchApp/Sources/Core/Animation/DisplayLinkManager.swift:47-58 | subscribing hands out a token no current subscriber holds, adds exactly it, starts the link when one can be created, and keeps the invariant (running implies subscribed, stopped implies no time stamp) |
| FrameClock.UnsubscribeKeepsInv | NotchApp/Sources/Core/Animation/DisplayLinkManager.swift:61-70 | unsubscribing removes exactly that token, keeps the invariant, and stops the link once nobody is subscribed |
| FrameClock.FireKeepsInv | NotchApp/Sources/Core/Animation/DisplayLinkManager.swift:111-140 | a frame keeps the invariant and schedules the callbacks of every current subscriber |
| FrameClock.RunsIffSubscribedKept | NotchApp/Sources/Core/Animation/DisplayLinkManager.swift:6-8 | when the link can always be created it runs exactly while someone is subscribed, across subscribe, unsubscribe and frames |
| FrameClock.FailedStartRetries | NotchApp/Sources/Core/Animation/DisplayLinkManager.swift:51-56 | a subscription whose link cannot be created stays registered with nothing running, and the next subscription starts the link |
| FrameClock.FirstFrameUsesPeriod | NotchApp/Sources/Core/Animation/DisplayLinkManager.swift:81-118 | the first frame after a (re)start reports the display's nominal period |
| FrameClock.DisplayLinkManager.constructor | NotchApp/Sources/Core/Animation/DisplayLinkManager.swift:29-36 | no subscribers, no link, no time stamp |
| FrameClock.DisplayLinkManager.Start | NotchApp/Sources/Core/Animation/DisplayLinkManager.swift:74-100 | the new state is the start step |
| FrameClock.DisplayLinkManager.Stop | NotchApp/Sources/Core/Animation/DisplayLinkManager.swift:102-107 | the new state is the stop step |
| FrameClock.DisplayLinkManager.Subscribe | NotchApp/Sources/Core/Animation/DisplayLinkManager.swift:47-58 | the new state and the token are the subscribe step's |
| FrameClock.DisplayLinkManager.Unsubscribe | NotchApp/Sources/Core/Animation/DisplayLinkManager.swift:61-70 | the new state is the unsubscribe step |
| FrameClock.DisplayLinkManager.DisplayLinkFired | NotchApp/Sources/Core/Animation/DisplayLinkManager.swift:111-140 | the new state, the delta and the scheduled callbacks are the frame step's |
| FileShelf.AddFileSpec | NotchApp/Sources/Widgets/FileShelf/FileShelfViewModel.swift:51-75 | a file is added exactly when the shelf is below capacity, holds no item with that URL and the file exists; the new item carries the URL, the fresh id and the time, and never overfills the shelf |
| FileShelf.LastPathComponent | NotchApp/Sources/Widgets/FileShelf/FileShelfViewModel.swift:67 | an item's name contains no slash, or is "/" for a path of slashes only |
| FileShelf.LastPathComponentOf | NotchApp/Sources/Widgets/FileShelf/FileShelfViewModel.swift:67 | the name is the last component of the URL's path, with or without trailing slashes, as for a dropped folder |
| FileShelf.AddKeepsUnique | NotchApp/Sources/Widgets/FileShelf/FileShelfViewModel.swift:51-75 | adding keeps URLs unique and, with a fresh id, ids unique |
| FileShelf.FirstIndexOfId | NotchApp/Sources/Widgets/FileShelf/FileShelfViewModel.swift:84 | the index found holds the id and is the first such; none is found exactly when no item has the id |
| FileShelf.RemoveByIdSpec | NotchApp/Sources/Widgets/FileShelf/FileShelfViewModel.swift:83-90 | removing by id drops one item when the id is present and nothing otherwise; with unique ids the id is gone and ids stay unique |
| FileShelf.RemovalEvents | NotchApp/Sources/Widgets/FileShelf/FileShelfViewModel.swift:93-97 | one removal event per removed item, carrying its id, in list order |
| FileShelf.OffsetsPartition | NotchApp/Sources/Widgets/FileShelf/FileShelfViewModel.swift:92-99 | removing at offsets drops as many items as there are in-range offsets, keeps only items of the shelf, and with no offsets keeps the shelf |
| FileShelf.UnmarkedKeepsIds | NotchApp/Sources/Widgets/FileShelf/FileShelfViewModel.swift:92-100 | removal at offsets keeps ids unique and below the next one |
| FileShelf.UnexpiredHas | NotchApp/Sources/Widgets/FileShelf/FileShelfViewModel.swift:150-157 | an item survives expiry exactly when it was on the shelf and added at or after the cutoff |
| FileShelf.ExpiredHas | NotchApp/Sources/Widgets/FileShelf/FileShelfViewModel.swift:150-155 | an item is announced as expired exactly when it was on the shelf and added before the cutoff |
| FileShelf.ExpirySizes | NotchApp/Sources/Widgets/FileShelf/FileShelfViewModel.swift:151-157 | every item is either kept or removed by expiry |
| FileShelf.NothingExpired | NotchApp/Sources/Widgets/FileShelf/FileShelfViewModel.swift:151-160 | with nothing older than the cutoff, expiry keeps the shelf unchanged and removes nothing |
| FileShelf.ZeroHoursRemovesAllOlder | NotchApp/Sources/Widgets/FileShelf/FileShelfViewModel.swift:149-157 | with an expiry of zero hours, every item added before now is removed and only items from now on stay |
| FileShelf.Urls | NotchApp/Sources/Widgets/FileShelf/FileShelfViewModel.swift:168 | the stored URL list has one entry per item, in order |
| FileShelf.Dates | NotchApp/Sources/Widgets/FileShelf/FileShelfViewModel.swift:169 | the stored date list has one entry per item, in order |
| FileShelf.Zip | NotchApp/Sources/Widgets/FileShelf/FileShelfViewModel.swift:179 | pairing the stored lists stops at the shorter one and pairs entries position by position |
| FileShelf.Loaded | NotchApp/Sources/Widgets/FileShelf/FileShelfViewModel.swift:179-203 | loading never yields more items than stored pairs |
| FileShelf.LoadedIds | NotchApp/Sources/Widgets/FileShelf/FileShelfViewModel.swift:191-192 | loaded items get fresh, consecutive ids |
| FileShelf.LoadedAllUsable | NotchApp/Sources/Widgets/FileShelf/FileShelfViewModel.swift:179-201 | when every stored file is still there, loading gives one item per stored pair with its URL and date |
| FileShelf.PersistLoadRoundTrip | NotchApp/Sources/Widgets/FileShelf/FileShelfViewModel.swift:167-207 | persisting and loading into an empty shelf gives back the same URLs and dates in the same order when every file is still there and none has expired |
| FileShelf.LoadingMayDuplicate | NotchApp/Sources/Widgets/FileShelf/FileShelfViewModel.swift:179-203 | loading does not check for duplicates: the same stored URL twice gives two items with that URL |
| FileShelf.UnexpiredKeepsIds | NotchApp/Sources/Widgets/FileShelf/FileShelfViewModel.swift:157 | expiry keeps ids unique and below the next id |
| FileShelf.LoadedKeepsValid | NotchApp/Sources/Widgets/FileShelf/FileShelfViewModel.swift:179-203 | appending loaded items keeps ids unique |
| FileShelf.FileShelfViewModel.constructor | NotchApp/Sources/Widgets/FileShelf/FileShelfViewModel.swift:23-36 | an empty shelf with no expiry timer, over the stored lists |
| FileShelf.FileShelfViewModel.PersistItems | NotchApp/Sources/Widgets/FileShelf/FileShelfViewModel.swift:167-172 | the stored lists become the shelf's URLs and dates and nothing else changes |
| FileShelf.FileShelfViewModel.AddFile | NotchApp/Sources/Widgets/FileShelf/FileShelfViewModel.swift:51-81 | when the item is accepted it is appended with the next id, the id counter advances, a file-dropped event is sent and the shelf is persisted; otherwise nothing changes; the expiry timer is untouched either way |
| FileShelf.FileShelfViewModel.RemoveFileById | NotchApp/Sources/Widgets/FileShelf/FileShelfViewModel.swift:83-90 | the shelf becomes the removal by id; a present id sends one removal event and persists, an absent one changes nothing; the id counter and the expiry timer are untouched |
| FileShelf.FileShelfViewModel.RemoveFileAtOffsets | NotchApp/Sources/Widgets/FileShelf/FileShelfViewModel.swift:92-100 | the unmarked items stay with their ids still unique, one removal event is sent per marked item in order, and the shelf is persisted; the id counter and the expiry timer are untouched |
| FileShelf.FileShelfViewModel.ClearAll | NotchApp/Sources/Widgets/FileShelf/FileShelfViewModel.swift:102-105 | the shelf is empty, valid and persisted empty, with no events; the id counter and the expiry timer are untouched |
| FileShelf.FileShelfViewModel.AnnounceRemovals | NotchApp/Sources/Widgets/FileShelf/FileShelfViewModel.swift:153-155 | one removal event per item, in order |
| FileShelf.FileShelfViewModel.RemoveExpiredItems | NotchApp/Sources/Widgets/FileShelf/FileShelfViewModel.swift:148-161 | the items after the cutoff stay, each expired item is announced in order, and the shelf is persisted exactly when something expired |
| FileShelf.FileShelfViewModel.LoadPersistedItems | NotchApp/Sources/Widgets/FileShelf/FileShelfViewModel.swift:174-207 | with both lists stored, the usable stored items are appended with fresh ids (the counter advances by their number), expiry then runs over the whole shelf, and the stores are rewritten exactly when something expired; with either list missing nothing changes, stores and counter included |
| FileShelf.FileShelfViewModel.StartMonitoring | NotchApp/Sources/Widgets/FileShelf/FileShelfViewModel.swift:40-43 | the expiry timer runs, and the stored items are loaded with every effect stated for LoadPersistedItems: items, events, id counter, and stores rewritten exactly when something expired |
| FileShelf.FileShelfViewModel.StopMonitoring | NotchApp/Sources/Widgets/FileShelf/FileShelfViewModel.swift:45-49 | the timer stops and the shelf is persisted unchanged, with the id counter untouched |
| Downloads.Progress | NotchApp/Sources/Widgets/Download/DownloadViewModel.swift:12-15 | a download's progress is a fraction for a non-negative size, and 0 when no positive total is known |
| Downloads.SumProgressBounds | NotchApp/Sources/Widgets/Download/DownloadViewModel.swift:52 | the summed progress of the list lies between 0 and its length |
| Downloads.TotalProgressIsFraction | NotchApp/Sources/Widgets/Download/DownloadViewModel.swift:50-54 | the mean progress is between 0 and 1 (0 for an empty list) |
| Downloads.ActiveCount | NotchApp/Sources/Widgets/Download/DownloadViewModel.swift:56-58 | the active count never exceeds the list's length |
| Downloads.ActiveCountCounts | NotchApp/Sources/Widgets/Download/DownloadViewModel.swift:56-58 | the active count is the number of positions holding an incomplete entry |
| Downloads.ListedStep | NotchApp/Sources/Widgets/Download/DownloadViewModel.swift:134 | a name is in a listing with one more entry exactly when it is in the shorter listing or is the new entry |
| Downloads.ScanEntriesNext | NotchApp/Sources/Widgets/Download/DownloadViewModel.swift:134-156 | scanning one more entry of the listing is exactly one entry step after the scan of the entries before it |
| Downloads.ScanEntriesIds | NotchApp/Sources/Widgets/Download/DownloadViewModel.swift:143-155 | ids issued by the first loop of a scan stay below the counter, which never goes back |
| Downloads.ScanCurrent | NotchApp/Sources/Widgets/Download/DownloadViewModel.swift:134-139 | the names a scan reports present are exactly the listed files whose lower-cased extension is a download extension |
| Downloads.ScanKeys | NotchApp/Sources/Widgets/Download/DownloadViewModel.swift:139-155 | a scan keeps every tracked name and adds exactly the present ones |
| Downloads.ScanKeepsTracked | NotchApp/Sources/Widgets/Download/DownloadViewModel.swift:143-146 | an entry tracked before the scan changes only its size |
| Downloads.ScanNewEntry | NotchApp/Sources/Widgets/Download/DownloadViewModel.swift:147-155 | an unseen listed download gets a fresh, incomplete entry with no total, started now |
| Downloads.ScanEntriesSpec | NotchApp/Sources/Widgets/Download/DownloadViewModel.swift:132-156 | the first loop tracks exactly the listed download files; tracked entries keep id, start and completion and change only size; new ones are fresh, incomplete and start now |
| Downloads.MarkMissingSpec | NotchApp/Sources/Widgets/Download/DownloadViewModel.swift:158-166 | marking keeps every key, completes exactly the tracked names missing from the listing, and schedules each of them for removal |
| Downloads.ScanIgnoresOtherFiles | NotchApp/Sources/Widgets/Download/DownloadViewModel.swift:135-136 | a file whose extension is not a download extension is never tracked |
| Downloads.InsertByStart | NotchApp/Sources/Widgets/Download/DownloadViewModel.swift:181-182 | inserting adds exactly the new entry to the multiset of entries |
| Downloads.InsertMembers | NotchApp/Sources/Widgets/Download/DownloadViewModel.swift:181-182 | the inserted list is one longer and holds exactly the old entries and the new one |
| Downloads.InsertSorted | NotchApp/Sources/Widgets/Download/DownloadViewModel.swift:181-182 | inserting keeps the list in start order |
| Downloads.ListsAllKeys | NotchApp/Sources/Widgets/Download/DownloadViewModel.swift:181-182 | a start-ordered list of one entry per tracked key is the active list |
| Downloads.InsertKey | NotchApp/Sources/Widgets/Download/DownloadViewModel.swift:181-182 | inserting the entry of one more key extends a start-ordered list of the keys done so far |
| Downloads.MoveKey | NotchApp/Sources/Widgets/Download/DownloadViewModel.swift:181-182 | one step of the sort moves a key from the remaining keys to the done keys and keeps the list in order |
| Downloads.ActiveList | NotchApp/Sources/Widgets/Download/DownloadViewModel.swift:180-183 | the active list is the tracked entries, one per key, in order of start time |
| Downloads.ScanAndDisplayDisagreeOnCase | NotchApp/Sources/Widgets/Download/DownloadViewModel.swift:135 | a file ending ".PART" is tracked as a download but its display name keeps the suffix |
| Downloads.UpperPartExtension | NotchApp/Sources/Widgets/Download/DownloadViewModel.swift:135 | the path extension of a name ending ".PART" is "PART" |
| Downloads.DownloadViewModel.constructor | NotchApp/Sources/Widgets/Download/DownloadViewModel.swift:43-64 | nothing tracked, nothing listed, not monitoring |
| Downloads.DownloadViewModel.UpdateActiveList | NotchApp/Sources/Widgets/Download/DownloadViewModel.swift:180-183 | the active list becomes the tracked entries in start order, and nothing else changes |
| Downloads.DownloadViewModel.TrackEntry | NotchApp/Sources/Widgets/Download/DownloadViewModel.swift:135-155 | one entry of the first loop: a download file is noted as present, its size updated when tracked and a fresh entry with the next id started otherwise; other files change nothing |
| Downloads.DownloadViewModel.TrackListing | NotchApp/Sources/Widgets/Download/DownloadViewModel.swift:132-156 | the tracked entries, id counter and present names become those of the first loop over the listing, one entry step at a time |
| Downloads.DownloadViewModel.ScanForDownloads | NotchApp/Sources/Widgets/Download/DownloadViewModel.swift:123-178 | an unreadable folder changes nothing, the id counter included; otherwise the tracked entries are the scanned and marked ones, a removal of the completed keys is scheduled when there are any, and the active list is rebuilt |
| Downloads.DownloadViewModel.FirePendingRemoval | NotchApp/Sources/Widgets/Download/DownloadViewModel.swift:168-174 | the oldest scheduled removal drops its keys from the tracked entries and rebuilds the active list; monitoring, polling, folder watching and the id counter are untouched |
| Downloads.DownloadViewModel.StartMonitoring | NotchApp/Sources/Widgets/Download/DownloadViewModel.swift:75-111 | a second start changes no field; otherwise monitoring and polling start, the folder is watched when it could be opened, and the initial scan has exactly the effect stated for ScanForDownloads |
| Downloads.DownloadViewModel.StopMonitoring | NotchApp/Sources/Widgets/Download/DownloadViewModel.swift:113-119 | monitoring, polling and folder watching stop; the tracked entries, active list, scheduled removals and id counter stay |
| DownloadView.FirstSuffix | NotchApp/Sources/Widgets/Download/DownloadExpandedView.swift:107-111 | the index found is the first download extension the name ends with (after a dot), or the end of the list when none matches |
| DownloadView.CleanFileName | NotchApp/Sources/Widgets/Download/DownloadExpandedView.swift:103-114 | the result is the cleaned name |
| DownloadView.NoSuffixMatches | NotchApp/Sources/Widgets/Download/DownloadExpandedView.swift:107-113 | a name with no download suffix is returned unchanged |
| DownloadView.CleanedNameSpec | NotchApp/Sources/Widgets/Download/DownloadExpandedView.swift:103-114 | the cleaned name is a prefix of the name; with a suffix matched, the name is the cleaned name plus a dot and that extension; with none, the name itself |
| DownloadView.RemovesAtMostOne | NotchApp/Sources/Widgets/Download/DownloadExpandedView.swift:108-110 | only one suffix is removed: ".part.crdownload" keeps ".part" |
| DownloadView.CaseSensitive | NotchApp/Sources/Widgets/Download/DownloadExpandedView.swift:108 | matching is case-sensitive: an upper-case ".PART" stays |
| Timer.WithinMinute | NotchApp/Sources/Widgets/Timer/TimerViewModel.swift:37 | `truncatingRemainder(dividingBy: 60)` lies in [0, 60) for a non-negative time and in (-60, 0] for a negative one |
| Timer.ComponentsRecombine | NotchApp/Sources/Widgets/Timer/TimerViewModel.swift:43-46 | hours, minutes-of-hour and seconds-of-minute from Int `/` and `%` recombine to the whole seconds; minutes and seconds are below 60; hours are positive exactly from 3600 s |
| Timer.HoursFace | NotchApp/Sources/Widgets/Timer/TimerViewModel.swift:47-48 | an "%d:%02d:%02d" face has three fields, the last two of two digits, and reads back as its seconds |
| Timer.MinutesFace | NotchApp/Sources/Widgets/Timer/TimerViewModel.swift:50 | an "%02d:%02d" face has two two-digit fields and reads back as its seconds |
| Timer.FormattedTimeReadsBack | NotchApp/Sources/Widgets/Timer/TimerViewModel.swift:42-51 | `formattedTime` has three fields from one hour on and two before, ends in two two-digit fields, and reads back as `Int(displayTime)` |
| Timer.ShortFormattedTimeDropsHours | NotchApp/Sources/Widgets/Timer/TimerViewModel.swift:54-59 | `shortFormattedTime` has two fields and reads back as the whole seconds modulo one hour |
| Timer.InitialInv | NotchApp/Sources/Widgets/Timer/TimerViewModel.swift:21-28 | a new timer (idle, countdown, five minutes) satisfies the invariant, is not active and shows progress 0 |
| Timer.ApplyKeepsInv | NotchApp/Sources/Widgets/Timer/TimerViewModel.swift:84-180 | every action keeps the invariant: ticks are scheduled exactly while running, running has a start date and paused none, the countdown is at least a minute, times are non-negative and a countdown's display is at most its length |
| Timer.ProgressIsFraction | NotchApp/Sources/Widgets/Timer/TimerViewModel.swift:31-39 | under the invariant `progress` is in [0, 1], and below 1 for the stopwatch |
| Timer.ActionsGuarded | NotchApp/Sources/Widgets/Timer/TimerViewModel.swift:85 | start, setMode and adjustDuration do nothing unless idle or finished; pause only acts while running, resume while paused, tick while running |
| Timer.ToggleTwicePausesAndResumes | NotchApp/Sources/Widgets/Timer/TimerViewModel.swift:115-124 | toggling a running timer twice leaves it running from the second instant with the elapsed time banked and the display unchanged |
| Timer.PausedTimeNotCounted | NotchApp/Sources/Widgets/Timer/TimerViewModel.swift:100-113 | start, tick, pause, resume, tick on a stopwatch counts both running stretches and none of the pause |
| Timer.CountdownFinishes | NotchApp/Sources/Widgets/Timer/TimerViewModel.swift:162-180 | a tick sets elapsed = banked + running time; it finishes exactly when a countdown's elapsed time reaches its length, and then shows 0, stops ticking and asks for the panel; otherwise it keeps running and shows the remainder (countdown) or the elapsed time (stopwatch) |
| Timer.ResetRestores | NotchApp/Sources/Widgets/Timer/TimerViewModel.swift:126-133 | reset ends activity, clears the times and shows the full countdown (progress 1) or zero (progress 0) |
| Timer.AdjustClampsAtMinute | NotchApp/Sources/Widgets/Timer/TimerViewModel.swift:141-145 | at rest the countdown moves by delta but never below 60 s, and the display shows the new length |
| Timer.TimerViewModel.constructor | NotchApp/Sources/Widgets/Timer/TimerViewModel.swift:21-28 | the object starts in the initial model |
| Timer.TimerViewModel.Start | NotchApp/Sources/Widgets/Timer/TimerViewModel.swift:84-98 | the object's new state is the start step of the old one |
| Timer.TimerViewModel.Resume | NotchApp/Sources/Widgets/Timer/TimerViewModel.swift:100-105 | the new state is the resume step of the old one |
| Timer.TimerViewModel.Pause | NotchApp/Sources/Widgets/Timer/TimerViewModel.swift:107-113 | the new state is the pause step of the old one |
| Timer.TimerViewModel.ToggleStartPause | NotchApp/Sources/Widgets/Timer/TimerViewModel.swift:115-124 | the new state is the toggle step of the old one |
| Timer.TimerViewModel.Reset | NotchApp/Sources/Widgets/Timer/TimerViewModel.swift:126-133 | the new state is the reset step of the old one |
| Timer.TimerViewModel.SetMode | NotchApp/Sources/Widgets/Timer/TimerViewModel.swift:135-139 | the new state is the set-mode step of the old one |
| Timer.TimerViewModel.AdjustDuration | NotchApp/Sources/Widgets/Timer/TimerViewModel.swift:141-145 | the new state is the adjust step of the old one |
| Timer.TimerViewModel.Tick | NotchApp/Sources/Widgets/Timer/TimerViewModel.swift:162-180 | the new state is the tick step; when that step finishes, the shared panel takes its expand step and announces it, keeping its notch geometry and HUD-visibility flag; otherwise the panel and bus are untouched |
| Timer.TimerViewModel.Finish | NotchApp/Sources/Widgets/Timer/TimerViewModel.swift:182-189 | stops ticking, marks the timer finished and expands the shared panel, keeping its notch geometry and HUD-visibility flag |
| Registry.FirstIndex | NotchApp/Sources/Widgets/WidgetRegistry.swift:38-76 | the index found holds a widget with the id; none is found exactly when no widget has it |
| Registry.Calls | NotchApp/Sources/Widgets/WidgetRegistry.swift:56-66 | a lifecycle loop makes one call per widget |
| Registry.FiltersDistribute | NotchApp/Sources/Widgets/WidgetRegistry.swift:13-52 | the enabled filter, the position filter and removal by id are order-preserving: each distributes over concatenation |
| Registry.EnabledDistributes | NotchApp/Sources/Widgets/WidgetRegistry.swift:13-15 | the enabled filter distributes over concatenation |
| Registry.AtPositionDistributes | NotchApp/Sources/Widgets/WidgetRegistry.swift:50-52 | the position filter distributes over concatenation |
| Registry.WithoutDistributes | NotchApp/Sources/Widgets/WidgetRegistry.swift:41 | removal by id distributes over concatenation |
| Registry.EnabledMembers | NotchApp/Sources/Widgets/WidgetRegistry.swift:13-15 | the enabled widgets are exactly the registered widgets that are enabled |
| Registry.AtPositionMembers | NotchApp/Sources/Widgets/WidgetRegistry.swift:50-52 | the widgets for a position are exactly the enabled registered widgets preferring that position |
| Registry.PositionsPartitionEnabled | NotchApp/Sources/Widgets/WidgetRegistry.swift:50-52 | the three positions share the enabled widgets between them, with none left over |
| Registry.WithoutMembers | NotchApp/Sources/Widgets/WidgetRegistry.swift:41 | removal keeps exactly the widgets with another id |
| Registry.WithoutKeepsUnique | NotchApp/Sources/Widgets/WidgetRegistry.swift:37-42 | with unique ids, unregistering removes exactly one widget when the id is registered and none otherwise, keeps ids unique, and leaves no widget with that id |
| Registry.RegisterKeepsUnique | NotchApp/Sources/Widgets/WidgetRegistry.swift:31-35 | registering keeps ids unique; a known id changes nothing, a new one is appended and then found |
| Registry.LookupFinds | NotchApp/Sources/Widgets/WidgetRegistry.swift:46-48 | with unique ids the lookup of a registered id finds that widget |
| Registry.SetEnabledSpec | NotchApp/Sources/Widgets/WidgetRegistry.swift:68-80 | enabling or disabling sets the flag of the widget with that id and of no other; order, ids and positions stay |
| Registry.CallsTarget | NotchApp/Sources/Widgets/WidgetRegistry.swift:56-66 | the k-th lifecycle call is activate or deactivate of the k-th widget |
| Registry.DistinctIds | NotchApp/Sources/Widgets/NotchWidget.swift:15 | two ids starting with different letters differ |
| Registry.DefaultsRegistered | NotchApp/Sources/Widgets/WidgetRegistry.swift:23-29 | registering the defaults into an empty registry adds all five, in order, under distinct ids |
| Registry.AtPositionSingle | NotchApp/Sources/Widgets/WidgetRegistry.swift:50-52 | a single widget is kept for a position exactly when it is enabled and prefers it |
| Registry.DefaultsAt | NotchApp/Sources/Widgets/WidgetRegistry.swift:23-29 | the position filter over the defaults, widget by widget |
| Registry.DefaultsOnlyAt | NotchApp/Sources/Widgets/WidgetRegistry.swift:23-52 | the music player is the only right-wing default, the HUD the only centre one, and the shelf, timer and downloads share the left wing in that order |
| Registry.DefaultLayout | NotchApp/Sources/Widgets/WidgetRegistry.swift:23-52 | on an empty registry the defaults are all registered with distinct ids and laid out as the widgets declare: player right, HUD centre, shelf, timer and downloads left |
| Registry.WidgetRegistry.constructor | NotchApp/Sources/Widgets/WidgetRegistry.swift:11-19 | an empty registry with no calls made |
| Registry.WidgetRegistry.Register | NotchApp/Sources/Widgets/WidgetRegistry.swift:31-35 | the list becomes the registration's, ids stay unique, no lifecycle call |
| Registry.WidgetRegistry.WidgetFor | NotchApp/Sources/Widgets/WidgetRegistry.swift:46-48 | the result is the lookup |
| Registry.WidgetRegistry.EnabledWidgets | NotchApp/Sources/Widgets/WidgetRegistry.swift:13-15 | the result is the enabled widgets |
| Registry.WidgetRegistry.WidgetsFor | NotchApp/Sources/Widgets/WidgetRegistry.swift:50-52 | the result is the widgets for the position |
| Registry.WidgetRegistry.Unregister | NotchApp/Sources/Widgets/WidgetRegistry.swift:37-42 | every widget with the id is removed, and the first one is deactivated when there is one |
| Registry.WidgetRegistry.ActivateAll | NotchApp/Sources/Widgets/WidgetRegistry.swift:56-60 | the enabled widgets are activated in order and the list is unchanged |
| Registry.WidgetRegistry.DeactivateAll | NotchApp/Sources/Widgets/WidgetRegistry.swift:62-66 | every widget is deactivated in order and the list is unchanged |
| Registry.WidgetRegistry.Enable | NotchApp/Sources/Widgets/WidgetRegistry.swift:68-73 | the widget with the id is enabled and activated; an unknown id changes nothing |
| Registry.WidgetRegistry.Disable | NotchApp/Sources/Widgets/WidgetRegistry.swift:75-80 | the widget with the id is disabled and deactivated; an unknown id changes nothing |
| Registry.WidgetRegistry.RegisterDefaults | NotchApp/Sources/Widgets/WidgetRegistry.swift:23-29 | the list becomes the defaults registered in turn, with no lifecycle call |
| HudWidget.VolumeLevel | NotchApp/Sources/Widgets/HUD/HUDViewModel.swift:58-62 | the volume icon's level is between 0 (muted) and 3 |
| HudWidget.IconsDistinct | NotchApp/Sources/Widgets/HUD/HUDViewModel.swift:59-70 | the eight icon names are pairwise different |
| HudWidget.IconRanges | NotchApp/Sources/Widgets/HUD/HUDViewModel.swift:56-72 | each icon shows exactly on its own range of values: volume at 0.001, 0.33 and 0.66, brightness at 0.5, backlight at 0.01 |
| HudWidget.VolumeLevelMonotone | NotchApp/Sources/Widgets/HUD/HUDViewModel.swift:58-62 | a louder volume never shows fewer waves |
| HudWidget.RunKeepsInv | NotchApp/Sources/Widgets/HUD/HUDViewModel.swift:19-54 | over any sequence of starts, stops, triggers and dismisses, a pending dismiss is always for a visible HUD, and a consistent icon stays consistent |
| HudWidget.InitialIconInconsistent | NotchApp/Sources/Widgets/HUD/HUDViewModel.swift:9-11 | the initial icon "speaker.wave.2.fill" is not the icon of the initial volume 0 |
| HudWidget.ShowReplacesDismiss | NotchApp/Sources/Widgets/HUD/HUDViewModel.swift:34-53 | showing makes the HUD visible with the type, value and matching icon; the new dismiss task hides it and tells the panel, while every earlier task is cancelled |
| HudWidget.StopSilences | NotchApp/Sources/Widgets/HUD/HUDViewModel.swift:27-30 | after stopObserving no trigger shows anything and no dismiss acts until observing restarts |
| HudWidget.StopSilencesRun | NotchApp/Sources/Widgets/HUD/HUDViewModel.swift:27-30 | a stopped view-model without a pending dismiss is left unchanged by every step other than a start |
| HudWidget.HUDViewModel.constructor | NotchApp/Sources/Widgets/HUD/HUDViewModel.swift:8-17 | hidden, volume, value 0, icon "speaker.wave.2.fill", not observing, no dismiss pending |
| HudWidget.HUDViewModel.StartObserving | NotchApp/Sources/Widgets/HUD/HUDViewModel.swift:19-25 | the new state is the start step |
| HudWidget.HUDViewModel.StopObserving | NotchApp/Sources/Widgets/HUD/HUDViewModel.swift:27-30 | the new state is the stop step |
| HudWidget.HUDViewModel.ShowHUD | NotchApp/Sources/Widgets/HUD/HUDViewModel.swift:34-54 | the new state is the show step, and the task returned is the one scheduled |
| HudWidget.HUDViewModel.OnHUDTrigger | NotchApp/Sources/Widgets/HUD/HUDViewModel.swift:20-23 | the new state is the trigger step |
| HudWidget.HUDViewModel.FireDismiss | NotchApp/Sources/Widgets/HUD/HUDViewModel.swift:45-53 | the new state is the fire step; when that task is still pending the panel's HUD is hidden and nothing else of the panel changes, otherwise the panel is untouched |
| MusicPlayer.FormatTimeReadsBack | NotchApp/Sources/Widgets/MusicPlayer/MusicPlayerViewModel.swift:144-148 | for a non-negative time the face has two fields with two-digit seconds and reads back as the whole seconds |
| MusicPlayer.EstimatedElapsed | NotchApp/Sources/Widgets/MusicPlayer/MusicPlayerViewModel.swift:133-137 | the estimated elapsed time never exceeds the duration, and is non-negative for a non-negative position and a clock that has not run backwards |
| MusicPlayer.FractionAtMostOne | NotchApp/Sources/Widgets/MusicPlayer/MusicPlayerViewModel.swift:139 | a non-negative part of a positive duration gives a progress between 0 and 1 |
| MusicPlayer.TruncOfParts | NotchApp/Sources/Widgets/MusicPlayer/MusicPlayerViewModel.swift:140-141 | the whole seconds of the elapsed and remaining faces add up to the duration's, or one less |
| MusicPlayer.SignedFace | NotchApp/Sources/Widgets/MusicPlayer/MusicPlayerViewModel.swift:141 | the remaining face is a minus sign followed by a clock face of the remaining whole seconds |
| MusicPlayer.ViewAtProgress | NotchApp/Sources/Widgets/MusicPlayer/MusicPlayerViewModel.swift:139 | within a track the progress is a fraction |
| MusicPlayer.ViewAtElapsed | NotchApp/Sources/Widgets/MusicPlayer/MusicPlayerViewModel.swift:140 | the elapsed face reads back as the elapsed whole seconds |
| MusicPlayer.ProgressSpec | NotchApp/Sources/Widgets/MusicPlayer/MusicPlayerViewModel.swift:124-142 | with no track or no positive duration the view is 0 and "0:00" twice; otherwise the progress is at most 1 and the view is that of an estimated elapsed time within the track |
| MusicPlayer.AnnouncesExactly | NotchApp/Sources/Widgets/MusicPlayer/MusicPlayerViewModel.swift:97-98 | the track-change notification shows exactly when there was a previous track, the title changed, the new title is not empty and the panel is not expanded |
| MusicPlayer.NowPlayingShowsFetchedPosition | NotchApp/Sources/Widgets/MusicPlayer/MusicPlayerViewModel.swift:91-94 | right after an update the view shows the fetched position, capped at the duration, whether or not music is playing |
| MusicPlayer.SameTrackAnnouncedOnce | NotchApp/Sources/Widgets/MusicPlayer/MusicPlayerViewModel.swift:90-101 | the same track reported again never shows the notification again nor starts another hide task |
| MusicPlayer.MusicPlayerViewModel.constructor | NotchApp/Sources/Widgets/MusicPlayer/MusicPlayerViewModel.swift:8-25 | no track, not playing, progress 0 with "0:00" faces, no notification, not observing, last fetch in the distant past |
| MusicPlayer.MusicPlayerViewModel.UpdateProgress | NotchApp/Sources/Widgets/MusicPlayer/MusicPlayerViewModel.swift:124-142 | the view becomes the progress of the current track at the given time and nothing else changes |
| MusicPlayer.MusicPlayerViewModel.UpdateNowPlaying | NotchApp/Sources/Widgets/MusicPlayer/MusicPlayerViewModel.swift:89-108 | the track, position and fetch time are taken from the update, the view is refreshed, and the notification is shown with its hide task started exactly when a track change is announced; the whole new state is the update step of the old one |
| MusicPlayer.MusicPlayerViewModel.ShowTrackChange | NotchApp/Sources/Widgets/MusicPlayer/MusicPlayerViewModel.swift:99-106 | the notification shows the new track and one more hide task is pending; nothing else changes |
| MusicPlayer.MusicPlayerViewModel.FireNotificationHide | NotchApp/Sources/Widgets/MusicPlayer/MusicPlayerViewModel.swift:103-106 | a hide task hides whichever notification is showing; nothing else changes |
| MusicPlayer.MusicPlayerViewModel.StopDisplayLink | NotchApp/Sources/Widgets/MusicPlayer/MusicPlayerViewModel.swift:117-122 | a held subscription is released from the frame clock and cleared; nothing else changes |
| MusicPlayer.MusicPlayerViewModel.StartDisplayLink | NotchApp/Sources/Widgets/MusicPlayer/MusicPlayerViewModel.swift:110-115 | the old subscription is released before a fresh token is taken, so the clock holds exactly one token of this view-model |
| MusicPlayer.MusicPlayerViewModel.OnFrame | NotchApp/Sources/Widgets/MusicPlayer/MusicPlayerViewModel.swift:112-114 | each frame refreshes the progress view from the track and the last fetch; nothing else changes |
| MusicPlayer.MusicPlayerViewModel.OnPlaybackChanged | NotchApp/Sources/Widgets/MusicPlayer/MusicPlayerViewModel.swift:56-64 | while observing, playing follows the new state and a frame subscription is held exactly while playing: the clock takes a fresh token in place of the old one, or takes the unsubscribe step of the held one; nothing else changes, and when not observing nothing changes at all |
| MusicPlayer.MusicPlayerViewModel.OnMediaChanged | NotchApp/Sources/Widgets/MusicPlayer/MusicPlayerViewModel.swift:49-53 | while observing, the whole state takes the update step: new track and position, refreshed view, and the notification exactly when a track change is announced; otherwise nothing changes |
| MusicPlayer.MusicPlayerViewModel.OnArtworkChanged | NotchApp/Sources/Widgets/MusicPlayer/MusicPlayerViewModel.swift:41-46 | while observing, the artwork follows the bridge's and nothing else changes; otherwise nothing changes |
| MusicPlayer.MusicPlayerViewModel.StartObserving | NotchApp/Sources/Widgets/MusicPlayer/MusicPlayerViewModel.swift:27-66 | the bridge's current track is adopted by the update step (view and notification included), then its artwork and playback state; a frame subscription is taken in place of any old one when playing, and otherwise the clock is untouched; the streams are observed |
| MusicPlayer.MusicPlayerViewModel.StopObserving | NotchApp/Sources/Widgets/MusicPlayer/MusicPlayerViewModel.swift:68-71 | the streams are dropped and a held frame subscription takes the clock's unsubscribe step and is cleared; nothing else changes |
| MediaBridge.DetectPriority | NotchApp/Sources/SystemBridge/MediaBridge.swift:242-252 | Spotify is chosen exactly when it runs, Music exactly when it runs and Spotify does not, and no player exactly when neither runs |
| MediaBridge.Min | NotchApp/Sources/SystemBridge/MediaBridge.swift:323 | the minimum is at most both arguments and is one of them |
| MediaBridge.SpotifyReplyShape | NotchApp/Sources/SystemBridge/MediaBridge.swift:299-323 | a Spotify reply is dropped as not running exactly when it is missing or "NOT_RUNNING", is read as a track exactly when it splits into seven fields, and the elapsed time never passes the duration |
| MediaBridge.MusicReplyShape | NotchApp/Sources/SystemBridge/MediaBridge.swift:369-390 | the same for Music with exactly six fields, and no artwork URL |
| MediaBridge.SpotifyFieldsReadBack | NotchApp/Sources/SystemBridge/MediaBridge.swift:292-347 | the seven fields the script joins with "\|\|\|" are read back trimmed: title, artist, album, artwork URL, the duration in seconds (1 s when unreadable), the elapsed time capped by it, and playing exactly when the last field says "true" |
| MediaBridge.MusicFieldsReadBack | NotchApp/Sources/SystemBridge/MediaBridge.swift:362-414 | the six fields of Music's reply are read back the same way, the duration in seconds |
| MediaBridge.JoinLongerThanReply | NotchApp/Sources/SystemBridge/MediaBridge.swift:299 | a reply of two or more joined fields is never mistaken for "NOT_RUNNING" |
| MediaBridge.WrongFieldCount | NotchApp/Sources/SystemBridge/MediaBridge.swift:308-312 | a reply with any other number of bar-free fields is dropped as malformed |
| MediaBridge.OptimizeArtworkURLSpec | NotchApp/Sources/SystemBridge/MediaBridge.swift:467-476 | the URL changes exactly when it names a large image on Spotify's image host, and keeps its length |
| MediaBridge.UpdateStepSpec | NotchApp/Sources/SystemBridge/MediaBridge.swift:541-557 | playbackStateChanged is sent exactly when the state changes; mediaChanged exactly when the track differs under MediaInfo == or the position moved, and then the info is stored; nothing else is sent; the like flag changes only for another track |
| MediaBridge.UpdateSettles | NotchApp/Sources/SystemBridge/MediaBridge.swift:541-557 | a second identical update sends nothing and changes nothing |
| MediaBridge.FetchArtworkOnce | NotchApp/Sources/SystemBridge/MediaBridge.swift:437-447 | the same key as the last fetched one starts nothing; a new key clears the artwork, is remembered, starts the optimised download, and a repeat with that key does nothing |
| MediaBridge.PollWithoutPlayer | NotchApp/Sources/SystemBridge/MediaBridge.swift:263-270 | with no player active or running a poll changes nothing and sends nothing |
| MediaBridge.PollDownloadIsSpotify | NotchApp/Sources/SystemBridge/MediaBridge.swift:263-277 | only a Spotify poll starts a download, and then the old artwork is already cleared |
| MediaBridge.SpotifyDownload | NotchApp/Sources/SystemBridge/MediaBridge.swift:326-347 | a Spotify reading starts a download only after clearing the artwork, and keeps the active player |
| MediaBridge.SpotifyStepEvents | NotchApp/Sources/SystemBridge/MediaBridge.swift:299-347 | reading Spotify sends events only for a track, and then a track is stored and the player kept |
| MediaBridge.MusicStepEvents | NotchApp/Sources/SystemBridge/MediaBridge.swift:369-416 | reading Music sends events only for a track, and then a track is stored and the player kept |
| MediaBridge.PollEventsNeedTrack | NotchApp/Sources/SystemBridge/MediaBridge.swift:263-277 | a poll that sends anything has read a track from an active player |
| MediaBridge.SpotifyArtworkSource | NotchApp/Sources/SystemBridge/MediaBridge.swift:326-334 | Spotify's artwork comes from the cache first; only a miss with a URL under a new key downloads the optimised URL |
| MediaBridge.TogglePlayPauseSpec | NotchApp/Sources/SystemBridge/MediaBridge.swift:138-153 | without a player nothing happens; otherwise playing becomes paused and anything else playing, the new state is announced, a script runs, and nothing else changes |
| MediaBridge.TogglePlayPauseTwice | NotchApp/Sources/SystemBridge/MediaBridge.swift:151-152 | toggling twice from playing or paused restores the bridge |
| MediaBridge.ToggleLikeSpec | NotchApp/Sources/SystemBridge/MediaBridge.swift:206-223 | without a player nothing happens; otherwise only the like flag flips, and flipping twice restores it |
| MediaBridge.TerminatedAnnouncesStop | NotchApp/Sources/SystemBridge/MediaBridge.swift:105-112 | when no player is left the track is cleared and stopped is announced, even when already stopped; with Spotify still running only the player is updated |
| MediaBridge.MediaBridge.constructor | NotchApp/Sources/SystemBridge/MediaBridge.swift:21-39 | no track, stopped, no player, not liked, no artwork, no artwork key |
| MediaBridge.MediaBridge.DetectActivePlayer | NotchApp/Sources/SystemBridge/MediaBridge.swift:242-255 | only the active player changes, to the detected one |
| MediaBridge.MediaBridge.CheckLikeStatus | NotchApp/Sources/SystemBridge/MediaBridge.swift:225-238 | only the like flag changes, to what the reply says when there is a player and a reply |
| MediaBridge.MediaBridge.UpdateState | NotchApp/Sources/SystemBridge/MediaBridge.swift:541-557 | the new state and the events sent are the update step's |
| MediaBridge.MediaBridge.StoreMedia | NotchApp/Sources/SystemBridge/MediaBridge.swift:549-556 | the new state and the events sent are the media half of the update step |
| MediaBridge.MediaBridge.FetchArtworkFromURL | NotchApp/Sources/SystemBridge/MediaBridge.swift:437-464 | the new state and the download started are the artwork step's |
| MediaBridge.MediaBridge.FetchSpotifyInfo | NotchApp/Sources/SystemBridge/MediaBridge.swift:281-348 | the new state, the events and the download are those of reading Spotify's reply |
| MediaBridge.MediaBridge.FetchAppleMusicInfo | NotchApp/Sources/SystemBridge/MediaBridge.swift:352-417 | the new state and the events are those of reading Music's reply |
| MediaBridge.MediaBridge.PollNowPlaying | NotchApp/Sources/SystemBridge/MediaBridge.swift:263-277 | the new state, the events and the download are the poll step's |
| MediaBridge.MediaBridge.TogglePlayPause | NotchApp/Sources/SystemBridge/MediaBridge.swift:138-158 | the new state, the events and the script are the toggle step's |
| MediaBridge.MediaBridge.ToggleLike | NotchApp/Sources/SystemBridge/MediaBridge.swift:206-223 | the new state and the script are the like step's |
| MediaBridge.MediaBridge.OnPlayerTerminated | NotchApp/Sources/SystemBridge/MediaBridge.swift:100-115 | the new state and the events are the termination step's |
| Shortcuts.KeyNameRoundTrip | NotchApp/Sources/Core/Settings/ShortcutManager.swift:28-37 | the six named keys (N, M, P, Space, Return, Esc) read back from their names; every other key shows as "?" |
| Shortcuts.ShownOfIsShownBits | NotchApp/Sources/Core/Settings/ShortcutManager.swift:22-25 | two sets of flags agree on the four shown modifiers exactly when their command, shift, option and control bits agree |
| Shortcuts.JoinNothing | NotchApp/Sources/Core/Settings/ShortcutManager.swift:39-40 | joining the parts with no separator is concatenation |
| Shortcuts.DisplayIsGlyphsThenKey | NotchApp/Sources/Core/Settings/ShortcutManager.swift:20-41 | the display string is the glyphs of the modifiers present followed by the key name |
| Shortcuts.KeyNameIsPlain | NotchApp/Sources/Core/Settings/ShortcutManager.swift:28-37 | a key name is never empty and never starts with a modifier glyph |
| Shortcuts.TakeOne | NotchApp/Sources/Core/Settings/ShortcutManager.swift:22-25 | an optional glyph is read off the front exactly when it is there |
| Shortcuts.ReadGlyphsThenKey | NotchApp/Sources/Core/Settings/ShortcutManager.swift:22-40 | glyphs followed by a plain key name read back as the shown modifiers and the name |
| Shortcuts.DisplayReadsBack | NotchApp/Sources/Core/Settings/ShortcutManager.swift:20-41 | the display string reads back as the four shown modifiers and the key name: glyphs appear exactly for the modifiers present, in the order command, shift, option, control, then the key |
| Shortcuts.DisplayDistinguishes | NotchApp/Sources/Core/Settings/ShortcutManager.swift:20-41 | two shortcuts show the same string exactly when they agree on the shown modifiers and the key name |
| Shortcuts.DefaultDisplay | NotchApp/Sources/Core/Settings/ShortcutManager.swift:15-41 | the default shortcut shows as command, shift, "N" |
| Shortcuts.MatchIsExact | NotchApp/Sources/Core/Settings/ShortcutManager.swift:68-69 | device-dependent bits never matter; any extra device-independent modifier, Caps Lock included, blocks the shortcut |
| Shortcuts.DefaultMatches | NotchApp/Sources/Core/Settings/ShortcutManager.swift:15-69 | command-shift-N triggers the default shortcut; with Caps Lock or option added, or another key, it does not |
| Shortcuts.DeviceBitsNeverMatch | NotchApp/Sources/Core/Settings/ShortcutManager.swift:69 | a shortcut whose modifiers include a device-dependent bit can never trigger |
| Shortcuts.ApplyKeepsInv | NotchApp/Sources/Core/Settings/ShortcutManager.swift:46-85 | setup, teardown, registration and a custom shortcut each keep at most the one held monitor installed, testing the current shortcut |
| Shortcuts.RunKeepsInv | NotchApp/Sources/Core/Settings/ShortcutManager.swift:46-85 | from the initial manager, every sequence of operations keeps that invariant |
| Shortcuts.FiresIffCurrent | NotchApp/Sources/Core/Settings/ShortcutManager.swift:50-74 | an event toggles the panel exactly when a monitor is held and the event matches the current shortcut; after teardown nothing fires |
| Shortcuts.SetCustomTakesOver | NotchApp/Sources/Core/Settings/ShortcutManager.swift:82-85 | after a custom shortcut is set it is the current one and exactly its events fire |
| Shortcuts.ShortcutManager.constructor | NotchApp/Sources/Core/Settings/ShortcutManager.swift:8-44 | no monitor, the default shortcut |
| Shortcuts.ShortcutManager.RegisterGlobalShortcut | NotchApp/Sources/Core/Settings/ShortcutManager.swift:57-75 | the new state is the register step: the held monitor removed and a new one for the shortcut installed |
| Shortcuts.ShortcutManager.Setup | NotchApp/Sources/Core/Settings/ShortcutManager.swift:46-48 | the new state is registration of the current shortcut |
| Shortcuts.ShortcutManager.Teardown | NotchApp/Sources/Core/Settings/ShortcutManager.swift:50-55 | the new state is the teardown step |
| Shortcuts.ShortcutManager.SetCustomShortcut | NotchApp/Sources/Core/Settings/ShortcutManager.swift:82-85 | the new state is the custom-shortcut step |
| Shortcuts.ShortcutManager.OnKeyDown | NotchApp/Sources/Core/Settings/ShortcutManager.swift:64-79 | a key-down that fires toggles the panel's expansion; one that does not changes nothing; either way the notch geometry and HUD-visibility flag are kept |
| ColorExtractor.QuantizeSpec | NotchApp/Sources/Core/Theme/ColorExtractor.swift:51-63 | a byte's bucket centre is one of the eight levels 16, 48, ..., 240, lies within half a bucket of the byte, and quantising a centre leaves it in place |
| ColorExtractor.FindBucket | NotchApp/Sources/Core/Theme/ColorExtractor.swift:65 | the index found is the first bucket with the pixel's centre; none is found exactly when no bucket has it |
| ColorExtractor.SumAppend | NotchApp/Sources/Core/Theme/ColorExtractor.swift:68 | appending a bucket adds its count to the totals that count it |
| ColorExtractor.SumIncrement | NotchApp/Sources/Core/Theme/ColorExtractor.swift:66 | raising one bucket's count by one raises by one exactly the totals that count that bucket |
| ColorExtractor.AddPixelCounts | NotchApp/Sources/Core/Theme/ColorExtractor.swift:65-69 | counting a pixel adds one to the total and to its own bucket's tally, and nothing to the others |
| ColorExtractor.AddPixelWellFormed | NotchApp/Sources/Core/Theme/ColorExtractor.swift:65-69 | counting keeps every bucket non-empty, on the level grid, with distinct centres |
| ColorExtractor.BucketsOfSpec | NotchApp/Sources/Core/Theme/ColorExtractor.swift:50-71 | the buckets of a thumbnail are well formed, their counts add up to the number of pixels, and each bucket counts exactly the pixels that quantise to its centre |
| ColorExtractor.RowIndex | NotchApp/Sources/Core/Theme/ColorExtractor.swift:55 | a pixel's index in the bitmap lies inside it |
| ColorExtractor.NextRow | NotchApp/Sources/Core/Theme/ColorExtractor.swift:53-55 | the next row starts where the previous one ended, still inside the bitmap |
| ColorExtractor.BucketsOfStep | NotchApp/Sources/Core/Theme/ColorExtractor.swift:53-71 | counting one more pixel of a prefix is one more counting step |
| ColorExtractor.CountPixel | NotchApp/Sources/Core/Theme/ColorExtractor.swift:65-69 | the new buckets are the old ones with the pixel counted |
| ColorExtractor.CollectBuckets | NotchApp/Sources/Core/Theme/ColorExtractor.swift:50-71 | the nested row and column loops produce the buckets of the whole thumbnail |
| ColorExtractor.SplitPoint | NotchApp/Sources/Core/Theme/ColorExtractor.swift:74 | the insertion point comes after every bucket counting at least as much and before the first counting less |
| ColorExtractor.SpliceAt | NotchApp/Sources/Core/Theme/ColorExtractor.swift:74 | where each element of an insertion comes from |
| ColorExtractor.InsertAt | NotchApp/Sources/Core/Theme/ColorExtractor.swift:74 | each position of an insertion by count holds the expected bucket |
| ColorExtractor.InsertByCountSorted | NotchApp/Sources/Core/Theme/ColorExtractor.swift:74 | inserting by count keeps the list in non-increasing count order |
| ColorExtractor.InsertByCountPermutes | NotchApp/Sources/Core/Theme/ColorExtractor.swift:74 | inserting adds exactly the new bucket to the multiset |
| ColorExtractor.InsertByCountUnique | NotchApp/Sources/Core/Theme/ColorExtractor.swift:74 | inserting a bucket with a new centre keeps the centres distinct |
| ColorExtractor.SortByCountSpec | NotchApp/Sources/Core/Theme/ColorExtractor.swift:74 | the sort orders by non-increasing count and is a permutation |
| ColorExtractor.SortByCountUnique | NotchApp/Sources/Core/Theme/ColorExtractor.swift:74 | sorting keeps the centres distinct |
| ColorExtractor.SortByCountWellFormed | NotchApp/Sources/Core/Theme/ColorExtractor.swift:74 | sorting keeps the buckets well formed |
| ColorExtractor.VisibleOnly | NotchApp/Sources/Core/Theme/ColorExtractor.swift:77-80 | the filter never lengthens the list |
| ColorExtractor.VisibleOnlyMembers | NotchApp/Sources/Core/Theme/ColorExtractor.swift:77-80 | the filter keeps exactly the buckets whose luminance lies strictly between 30 and 240 |
| ColorExtractor.VisibleOnlyOrder | NotchApp/Sources/Core/Theme/ColorExtractor.swift:77-80 | kept buckets stay in their relative order |
| ColorExtractor.VisibleOnlyKeeps | NotchApp/Sources/Core/Theme/ColorExtractor.swift:77-80 | count order and well-formedness survive the filter |
| ColorExtractor.Clamp | NotchApp/Sources/Core/Theme/ColorExtractor.swift:146-148 | the clamp lies in [0, 1] and leaves values in range alone |
| ColorExtractor.AdjustedSpec | NotchApp/Sources/Core/Theme/ColorExtractor.swift:143-151 | adjusting keeps alpha, lands every component in [0, 1], and shifts components that stay in range by exactly the delta |
| ColorExtractor.IsDarkSpec | NotchApp/Sources/Core/Theme/ColorExtractor.swift:11-14 | a bucket's colour is dark exactly when its luminance is below half of 255; the default palette is dark |
| ColorExtractor.FirstFar | NotchApp/Sources/Core/Theme/ColorExtractor.swift:94-98 | the index found is the first bucket whose channel distance from the dominant exceeds 60; none is found exactly when none does |
| ColorExtractor.Extract | NotchApp/Sources/Core/Theme/ColorExtractor.swift:19-116 | the palette is that of counting, sorting, filtering and picking on the rendered thumbnail |
| ColorExtractor.HeadIsMost | NotchApp/Sources/Core/Theme/ColorExtractor.swift:74-85 | the head of a list in count order counts at least as much as any member |
| ColorExtractor.DominantIsMostFrequent | NotchApp/Sources/Core/Theme/ColorExtractor.swift:74-113 | with visible buckets, the dominant colour is a visible bucket of the image counting at least as many pixels as any other visible bucket; without, the palette is the default |
| ColorExtractor.SecondaryChoice | NotchApp/Sources/Core/Theme/ColorExtractor.swift:93-110 | the secondary colour is a later visible bucket further than 60 from the dominant when there is one; failing that the second visible bucket; failing that the dominant brightened by 0.3 |
| ColorExtractor.ColorOfInjective | NotchApp/Sources/Core/Theme/ColorExtractor.swift:86-107 | bucket colours differ exactly when bucket centres differ |
| ColorExtractor.SecondaryDiffers | NotchApp/Sources/Core/Theme/ColorExtractor.swift:93-110 | for well-formed visible buckets the secondary colour always differs from the dominant one |
| ColorExtractor.PaletteColorsDiffer | NotchApp/Sources/Core/Theme/ColorExtractor.swift:19-116 | for any thumbnail the palette's secondary colour differs from its dominant one |
| Themes.LowerIdempotent | NotchApp/Sources/Core/Theme/ThemeEngine.swift:56 | lower-casing a name twice is lower-casing it once |
| Themes.ThemeForNameSpec | NotchApp/Sources/Core/Theme/ThemeEngine.swift:55-66 | a name selects the same theme as its lower-case form; it selects the dark, light or album-art theme exactly when it lower-cases to "dark", "light" or "albumart", and the default theme exactly when it lower-cases to none of them |
| Themes.MixedCaseNames | NotchApp/Sources/Core/Theme/ThemeEngine.swift:55-66 | "Dark" selects the dark theme and "AlbumArt" the plain album-art theme |
| Themes.StartKeepsInv | NotchApp/Sources/Core/Theme/ThemeEngine.swift:75-95 | starting the observation cancels the old subscription before holding a new one, so at most one stays live |
| Themes.SetThemeSpec | NotchApp/Sources/Core/Theme/ThemeEngine.swift:41-71 | choosing a theme makes it current and stores the name, which the current theme name then reports; artwork is observed afterwards exactly when the name is "albumart", with at most one live subscription |
| Themes.InitialEngineSpec | NotchApp/Sources/Core/Theme/ThemeEngine.swift:27-81 | startup selects the stored name's theme ("default" when none is stored) and reports that name; it observes artwork exactly when the name is "albumart", and then starts one extraction for artwork already showing and none otherwise |
| Themes.MixedCaseAlbumArtNotObserved | NotchApp/Sources/Core/Theme/ThemeEngine.swift:33-66 | choosing "AlbumArt" selects the plain album-art theme yet, not being spelled "albumart", observes no artwork |
| Themes.PublishSpec | NotchApp/Sources/Core/Theme/ThemeEngine.swift:83-113 | without a subscription a new artwork value changes nothing; with one, an image starts its extraction and keeps the theme, and losing the artwork reverts to the plain album-art theme |
| Themes.ApplyKeepsInv | NotchApp/Sources/Core/Theme/ThemeEngine.swift:75-100 | every step keeps subscription numbers unique and at most the held subscription live |
| Themes.RunKeepsInv | NotchApp/Sources/Core/Theme/ThemeEngine.swift:75-100 | every sequence of theme choices, artwork values and finished extractions keeps at most one artwork subscription alive |
| Themes.FinishAsWrittenKeepsInv | NotchApp/Sources/Core/Theme/ThemeEngine.swift:102-113 | the completion as written also keeps the subscription invariant and differs from the corrected one only in the current theme |
| Themes.ChosenThemeStays | NotchApp/Sources/Core/Theme/ThemeEngine.swift:41-100 | with the corrected completion, once a name other than "albumart" is chosen, later artwork values and finishing extractions leave the chosen theme current and nothing observed |
| Themes.FinishSpec | NotchApp/Sources/Core/Theme/ThemeEngine.swift:102-113 | with the corrected completion, an extraction sets the theme to its image's album-art palette when it is the latest request of the running observation, and otherwise changes nothing but removing it from the pending ones |
| Themes.StaleExtractionOverrides | NotchApp/Sources/Core/Theme/ThemeEngine.swift:41-113 | as written, an extraction started under "albumart" that finishes after the user has chosen "dark" replaces the dark theme while the stored name still says "dark"; the corrected completion keeps the dark theme |
| Themes.ThemeEngine.constructor | NotchApp/Sources/Core/Theme/ThemeEngine.swift:27-36 | the new engine is the startup state for the stored name and the bridge's artwork |
| Themes.ThemeEngine.SetTheme | NotchApp/Sources/Core/Theme/ThemeEngine.swift:41-52 | the new state is that of choosing the theme under the name |
| Themes.ThemeEngine.CurrentName | NotchApp/Sources/Core/Theme/ThemeEngine.swift:69-71 | reports the stored name, "default" when none is stored |
| Themes.ThemeEngine.StartArtworkObservation | NotchApp/Sources/Core/Theme/ThemeEngine.swift:75-95 | the new state is that of starting the observation with the bridge's artwork |
| Themes.ThemeEngine.StopArtworkObservation | NotchApp/Sources/Core/Theme/ThemeEngine.swift:97-100 | the subscription is cancelled and dropped |
| Themes.ThemeEngine.ApplyArtworkTheme | NotchApp/Sources/Core/Theme/ThemeEngine.swift:102-106 | the extraction is recorded as pending and becomes the latest request |
| Themes.ThemeEngine.OnArtworkPublished | NotchApp/Sources/Core/Theme/ThemeEngine.swift:85-94 | the new state is that of the sink receiving the value |
| Themes.ThemeEngine.FinishExtraction | NotchApp/Sources/Core/Theme/ThemeEngine.swift:107-111 | the new state is that of the corrected completion of the pending extraction (the source's own completion is Themes.FinishAsWritten) |
| Text.NatToString | NotchApp/Sources/Widgets/Timer/TimerViewModel.swift:48-50 | a rendered number is a non-empty run of decimal digits, a single digit exactly below ten |
| Text.ParseNatToString | NotchApp/Sources/Widgets/Timer/TimerViewModel.swift:48-50 | reading back the decimal rendering of a number gives the number |
| Text.IntToString | NotchApp/Sources/Widgets/Timer/TimerViewModel.swift:48-58 | the "%d" rendering of a number reads back as that number, after a minus sign when it is negative |
| Text.Pad2 | NotchApp/Sources/Widgets/Timer/TimerViewModel.swift:48-58 | the "%02d" rendering of a number below 100 is exactly two digits reading back as the number; larger numbers read back unpadded |
| Text.Trunc | NotchApp/Sources/Widgets/MusicPlayer/MusicPlayerViewModel.swift:145-146 | converting a Double to Int truncates toward zero |
| Text.Rem | NotchApp/Sources/Widgets/Timer/TimerViewModel.swift:45-46 | Int remainder by a positive divisor completes the truncated quotient and takes the sign of the dividend |
| Text.LastCharDiffers | NotchApp/Sources/Widgets/Download/DownloadExpandedView.swift:108 | a name does not end with a suffix whose last character differs from the name's |
| Text.IndexOfFrom | NotchApp/Sources/SystemBridge/MediaBridge.swift:308 | the position found is the first occurrence at or after the start; none is found exactly when there is none |
| Text.Split | NotchApp/Sources/SystemBridge/MediaBridge.swift:308 | splitting always yields at least one piece |
| Text.SplitAtFirst | NotchApp/Sources/SystemBridge/MediaBridge.swift:308 | splitting at a character the first piece lacks yields that piece and then the split of the rest |
| Text.SplitNoSeparator | NotchApp/Sources/SystemBridge/MediaBridge.swift:308 | a string without the separator character splits into itself alone |
| Text.SplitLastPiece | NotchApp/Sources/SystemBridge/MediaBridge.swift:308 | the last piece of a split is whatever follows the last separator |
| Text.SplitAtSeparator | NotchApp/Sources/SystemBridge/MediaBridge.swift:308 | splitting at a separator whose first character the first piece lacks yields that piece and then the split of the rest |
| Text.SplitWithoutSeparator | NotchApp/Sources/SystemBridge/MediaBridge.swift:308 | a string without the separator's first character splits into itself alone |
| Text.JoinSplit | NotchApp/Sources/SystemBridge/MediaBridge.swift:308 | joining the pieces of a split with the separator gives back the input |
| Text.SplitPiecesAreFree | NotchApp/Sources/SystemBridge/MediaBridge.swift:308 | no piece of a split contains the separator |
| Text.SplitJoin | NotchApp/Sources/SystemBridge/MediaBridge.swift:308 | pieces free of the separator's first character split back out of their join |
| Text.JoinLength | NotchApp/Sources/SystemBridge/MediaBridge.swift:319 | joining the same pieces with separators of equal length gives strings of equal length |
| Text.ReplaceAllKeepsLength | NotchApp/Sources/SystemBridge/MediaBridge.swift:319 | replacing a target by a string of its own length keeps the length |
| Text.ReplaceAllAbsent | NotchApp/Sources/SystemBridge/MediaBridge.swift:319 | where the target does not occur, replacing changes nothing |
| Text.ReplaceAllChanges | NotchApp/Sources/SystemBridge/MediaBridge.swift:471-472 | replacing an occurring target by a different string of the same length changes the string |
| Text.LeadingWhitespace | NotchApp/Sources/SystemBridge/MediaBridge.swift:231 | counts exactly the whitespace characters at the front |
| Text.TrailingWhitespace | NotchApp/Sources/SystemBridge/MediaBridge.swift:231 | counts exactly the whitespace characters at the end |
| Text.TrimSpec | NotchApp/Sources/SystemBridge/MediaBridge.swift:231 | trimming keeps a contiguous piece of the input that neither starts nor ends with whitespace |
| Text.Lower | NotchApp/Sources/Core/Theme/ThemeEngine.swift:56 | lower-casing keeps the length and lower-cases each character on its own |
| ClockFace.SplitThree | NotchApp/Sources/Widgets/Timer/TimerViewModel.swift:48 | three digit fields joined by colons split back into those fields |
| ClockFace.SplitTwo | NotchApp/Sources/Widgets/Timer/TimerViewModel.swift:50-58 | two digit fields joined by a colon split back into those fields |
| ClockFace.SexagesimalThree | NotchApp/Sources/Widgets/Timer/TimerViewModel.swift:44-46 | three fields stand for hours, minutes and seconds |
| ClockFace.SexagesimalTwo | NotchApp/Sources/Widgets/Timer/TimerViewModel.swift:56-57 | two fields stand for minutes and seconds |
| ClockFace.ReadThree | NotchApp/Sources/Widgets/Timer/TimerViewModel.swift:43-48 | an "H:MM:SS" face reads back as hours, minutes and seconds in seconds |
| ClockFace.ReadTwo | NotchApp/Sources/Widgets/Timer/TimerViewModel.swift:50-58 | an "M:SS" face reads back as minutes and seconds in seconds |

## Left out

- SwiftUI views and layout, the `Path` drawing of the notch shape, settings and onboarding views, app glue and the constant-only theme structs: no behaviour beyond what the view-models carry. The exception is `cleanFileName`, which is modelled.
- SettingsManager and UserDefaults: registered defaults are constants of the model, and stored preferences are fields of the object that reads them.
- SystemInfoBridge (CoreAudio, IOKit, DisplayServices): foreign calls. HUD values arrive as parameters.
- Concurrency: locks, `DispatchQueue.main.async`, `Task` sleeps and Combine's `receive(on:)` are sequential steps. A `@Published` value re-delivered on subscription is an explicit publish step.
- Clocks: `Date()`, CVTimeStamp and the mach timebase are parameters.
- FrameClock.FrameDelta: the host-time difference times the timebase numerator is required to fit in 64 bits. The UInt64 overflow beyond that is not modelled.
- Media and system effects are left out:
  - AppleScript execution: replies are parameters and commands are returned as text.
  - URLSession downloads: the URL to fetch is returned.
  - NSCache writes.
  - The media bridge's own `extractColors`.
  - Launch and terminate observer registration, and the polling timers, including the 0.3 s re-poll after a toggle.
  - The next and previous track commands.
- Beeps, `withAnimation`, `NSLog` and `print`.
- Double and CGFloat arithmetic is exact `real`. Swift's rounding at the luminance, distance and progress boundaries is not modelled. Float HUD values are reals in [0, 1].
- Parsing a Double out of AppleScript text and `URL(string:)` are uninterpreted function parameters.
- ColorExtractor.Extract: rendering the artwork into an RGBA thumbnail, and the nil-`cgImage` and empty-extent guards, are CoreImage calls. The model starts from the rendered pixels.
- ColorExtractor.AdjustedSpec: the colour-space conversion failure (`return self`) is not modelled. The colours are built by `NSColor(red:green:blue:alpha:)` in sRGB, and converting an RGB-based colour to device RGB does not fail. The model also takes the converted components to be the constructed ones, leaving out the sRGB to device-RGB transform.
- ColorExtractor.IsDarkSpec: the 0.5 fallback when `luminance` cannot convert the colour is not modelled, for the same reason. Luminance is computed from the constructed components, without the sRGB to device-RGB transform.
- ColorExtractor.SortByCountSpec: Swift's `sort` is not stable. The model uses a stable insertion by count, so buckets with equal counts may be ordered differently by the app.
- Themes.ThemeEngine.FinishExtraction: the engine object runs the corrected completion, which applies only the latest request of a running observation. The source's unconditional assignment (ThemeEngine.swift lines 107-111) is modelled as Themes.FinishAsWritten, and the race it allows is shown by Themes.StaleExtractionOverrides. Themes.ApplyKeepsInv and Themes.RunKeepsInv describe runs with the corrected completion; Themes.FinishAsWrittenKeepsInv shows the invariant also holds for the source's.
- FileShelf.LastPathComponent: percent-escapes are not decoded, so `My%20File.pdf` keeps its escape where `URL.lastPathComponent` gives "My File.pdf". URLs are plain text in the model.
- Text.Lower: lower-cases ASCII letters only. Swift's `lowercased()` also folds other scripts.
- MediaBridge.OptimizeArtworkURLSpec: the `URL(string:) ?? url` fallback is not modelled. The rewritten URL text is kept as is.
- File shelf icons, thumbnails and file types, and the size and speed formatting of downloads (`ByteCountFormatter`, elapsed time): display only.
- HudWidget.HUDViewModel.ShowHUD: the auto-dismiss delay setting is not modelled. Only which pending dismiss may still fire matters.
- Timer: the public `countdownDuration` setter is a plain field assignment.

## Behaviour of the code as written

These are modelled as the code has them, with a lemma that shows the behaviour:

- A start whose event tap cannot be created leaves the native OSD hidden (`HUDSuppression.FailedStartLeavesOSDHidden`).
- A click outside the app collapses the panel even without a notch (`Gestures.ClickCollapsesWithoutNotch`).
- When the auxiliary areas overlap, a single mouse move both expands and collapses the panel (`Gestures.OverlappingAreasExpandAndCollapse`).
- The HUD's initial icon does not match its initial value (`HudWidget.InitialIconInconsistent`).
- The download scan matches extensions ignoring case, but the display name does not (`Downloads.ScanAndDisplayDisagreeOnCase`).
- Loading the file shelf can duplicate items, because capacity and URL uniqueness are not checked (`FileShelf.LoadingMayDuplicate`).
- A reply with a field count other than seven (Spotify) or six (Music) is dropped as malformed (`MediaBridge.WrongFieldCount`). A track title containing the separator `|||` produces such a reply.
- Any extra device-independent modifier held with the shortcut stops it from firing (`Shortcuts.MatchIsExact`). Caps Lock counts as such a modifier.

## Findings

| source | as written | input that shows it | evidently intended | confidence | as-written member | corrected member |
|---|---|---|---|---|---|---|
| NotchApp/Sources/Core/Theme/ThemeEngine.swift:102-113 | a background palette extraction always sets the album-art theme when it finishes, even if the user has since chosen another theme or newer artwork has arrived | start with "albumart" stored and artwork showing; choose "dark" before the extraction finishes; the extraction then replaces the dark theme while the stored name says "dark" | a finished extraction applies only if it is the latest request of a still-running artwork observation | not executed | Themes.FinishAsWritten (shown by Themes.StaleExtractionOverrides) | Themes.FinishStep (Themes.FinishSpec, Themes.ChosenThemeStays) |
