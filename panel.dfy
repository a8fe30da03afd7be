// The notch state machine (NotchApp/Sources/Core/NotchWindow/NotchViewModel.swift):
// the three states, the transition table that `performTransition(to:)`
// enforces, the 50 ms hover debounce, the panel dimensions derived from the
// state, and the HUD-visibility and screen-change observers.
//
// The 50 ms debounce task is a pending flag plus an explicit `FireHoverDebounce`
// step: cancelling the task clears the flag, and the task firing is the step.
module Panel {
  import opened Wrappers
  import opened Events
  import opened Shape

  const MaxExpandedHeight: real := 180.0
  const WingWidth: real := 120.0

  /** The transitions `performTransition(to:)` accepts; every other pair, and staying put, is ignored. */
  predicate IsValidTransition(from: NotchState, to: NotchState)
  {
    match (from, to)
    case (Idle, Hovering) => true
    case (Hovering, Expanded) => true
    case (Hovering, Idle) => true
    case (Expanded, Hovering) => true
    case (Expanded, Idle) => true
    case _ => false
  }

  /** `panelWidth` as `updatePanelDimensions` sets it for a state. */
  function PanelWidthFor(s: NotchState, notchWidth: real): real
  {
    if s == Idle then notchWidth else notchWidth + WingWidth * 2.0
  }

  /** `expandedHeight` as `updatePanelDimensions` sets it for a state. */
  function ExpandedHeightFor(s: NotchState): real
  {
    if s == Expanded then MaxExpandedHeight else 0.0
  }

  /** Wings (120 points each side) are shown in every state but idle. */
  lemma WingsOutsideIdle(s: NotchState, notchWidth: real)
    ensures PanelWidthFor(s, notchWidth) - notchWidth == (if s == Idle then 0.0 else 2.0 * WingWidth)
    ensures PanelWidthFor(s, notchWidth) > notchWidth <==> s != Idle
  {
  }

  /** The panel has content height exactly when it is expanded. */
  lemma TallOnlyWhenExpanded(s: NotchState)
    ensures ExpandedHeightFor(s) > 0.0 <==> s == Expanded
    ensures 0.0 <= ExpandedHeightFor(s) <= MaxExpandedHeight
  {
  }

  // ---------------------------------------------------------------------------
  // The transition part of the view-model as a value
  // ---------------------------------------------------------------------------

  /** `currentState`, `previousState` and whether `hoverDebounceTask` is still waiting to fire. */
  datatype Machine = Machine(current: NotchState, previous: NotchState, hoverPending: bool)

  /** The state right after `init()`: hovering, with nothing pending. */
  const Initial := Machine(Hovering, Hovering, false)

  /** The public entry points, and the debounce task firing. */
  datatype Op = Hover | FireHoverDebounce | Expand | Collapse | ToggleExpand

  /** `performTransition(to:)`: the new machine and the events sent on the bus. */
  function Transition(m: Machine, to: NotchState): (Machine, seq<NotchEvent>)
  {
    if to == m.current || !IsValidTransition(m.current, to) then (m, [])
    else (m.(previous := m.current, current := to), [StateChanged(to)])
  }

  function ExpandStep(m: Machine): (Machine, seq<NotchEvent>)
  {
    if m.current != Hovering then (m, [])
    else Transition(m.(hoverPending := false), Expanded)
  }

  function CollapseStep(m: Machine): (Machine, seq<NotchEvent>)
  {
    Transition(m.(hoverPending := false), Hovering)
  }

  /** One operation on the machine, with the events it sends. */
  function Step(m: Machine, op: Op): (Machine, seq<NotchEvent>)
  {
    match op
    case Hover => if m.current != Idle then (m, []) else (m.(hoverPending := true), [])
    case FireHoverDebounce =>
      if !m.hoverPending then (m, []) else Transition(m.(hoverPending := false), Hovering)
    case Expand => ExpandStep(m)
    case Collapse => CollapseStep(m)
    case ToggleExpand =>
      match m.current
      case Hovering => ExpandStep(m)
      case Expanded => CollapseStep(m)
      case Idle => (m, [])
  }

  /** A sequence of operations, and every event they send, in order. */
  function Run(m: Machine, ops: seq<Op>): (Machine, seq<NotchEvent>)
    decreases |ops|
  {
    if ops == [] then (m, [])
    else
      var before := Run(m, ops[..|ops| - 1]);
      var after := Step(before.0, ops[|ops| - 1]);
      (after.0, before.1 + after.1)
  }

  /** The debounce is only ever pending while the panel is idle. */
  predicate Inv(m: Machine)
  {
    m.hoverPending ==> m.current == Idle
  }

  /**
   * Every step either leaves the state alone and sends nothing, or makes a
   * transition of the table, records the old state as `previousState` and
   * sends exactly one `stateChanged` carrying the new state.
   */
  lemma StepFollowsTable(m: Machine, op: Op)
    ensures var (m', ev) := Step(m, op);
      (m'.current == m.current && m'.previous == m.previous && ev == [])
      || (IsValidTransition(m.current, m'.current) && m'.previous == m.current
          && ev == [StateChanged(m'.current)])
  {
  }

  /** Every step keeps the debounce pending only while idle. */
  lemma StepKeepsInv(m: Machine, op: Op)
    requires Inv(m)
    ensures Inv(Step(m, op).0)
  {
  }

  /** No operation targets idle, so a step never enters it. */
  lemma StepNeverEntersIdle(m: Machine, op: Op)
    ensures Step(m, op).0.current == Idle ==> m.current == Idle
  {
  }

  /** `stateChanged` events read in order as a walk through the transition table starting at `start`. */
  predicate IsWalk(start: NotchState, ev: seq<NotchEvent>)
  {
    (forall i :: 0 <= i < |ev| ==> ev[i].StateChanged?)
    && (|ev| > 0 ==> IsValidTransition(start, ev[0].state))
    && (forall i :: 0 < i < |ev| ==> IsValidTransition(ev[i - 1].state, ev[i].state))
  }

  /** Where the walk `ev` from `start` ends. */
  function WalkEnd(start: NotchState, ev: seq<NotchEvent>): NotchState
    requires forall i :: 0 <= i < |ev| ==> ev[i].StateChanged?
  {
    if ev == [] then start else ev[|ev| - 1].state
  }

  /**
   * The events a run sends are all `stateChanged`, each a legal move from the
   * state announced before it, and the last one announces the current state.
   */
  lemma {:induction false} RunIsWalk(m: Machine, ops: seq<Op>)
    ensures IsWalk(m.current, Run(m, ops).1)
    ensures WalkEnd(m.current, Run(m, ops).1) == Run(m, ops).0.current
    decreases |ops|
  {
    if ops != [] {
      var before := Run(m, ops[..|ops| - 1]);
      RunIsWalk(m, ops[..|ops| - 1]);
      StepFollowsTable(before.0, ops[|ops| - 1]);
      var after := Step(before.0, ops[|ops| - 1]);
      assert Run(m, ops).1 == before.1 + after.1;
    }
  }

  /** Every run keeps the debounce pending only while idle. */
  lemma {:induction false} RunKeepsInv(m: Machine, ops: seq<Op>)
    requires Inv(m)
    ensures Inv(Run(m, ops).0)
    decreases |ops|
  {
    if ops != [] {
      RunKeepsInv(m, ops[..|ops| - 1]);
      StepKeepsInv(Run(m, ops[..|ops| - 1]).0, ops[|ops| - 1]);
    }
  }

  /**
   * Once out of idle the panel never returns to it; in particular, from the
   * initial hovering state idle is unreachable by any sequence of operations.
   */
  lemma {:induction false} IdleUnreachable(m: Machine, ops: seq<Op>)
    requires m.current != Idle
    ensures Run(m, ops).0.current != Idle
    decreases |ops|
  {
    if ops != [] {
      IdleUnreachable(m, ops[..|ops| - 1]);
      StepNeverEntersIdle(Run(m, ops[..|ops| - 1]).0, ops[|ops| - 1]);
    }
  }

  /** `collapse()` always rests on hovering, from every state: it never goes back to idle. */
  lemma CollapseRestsOnHovering(m: Machine)
    ensures Step(m, Collapse).0.current == Hovering
    ensures !Step(m, Collapse).0.hoverPending
  {
  }

  /**
   * From idle, a hover followed by a collapse before the debounce fires
   * ends hovering: the collapse itself makes the idle-to-hovering move.
   */
  lemma HoverThenCollapseHovers(m: Machine)
    requires m.current == Idle
    ensures Run(m, [Hover, Collapse]).0.current == Hovering
    ensures Run(m, [Hover, Collapse]).1 == [StateChanged(Hovering)]
  {
    assert [Hover, Collapse][..1] == [Hover];
    assert [Hover][..0] == [];
  }

  /** Repeated hovers restart one debounce: it moves to hovering once, and firing it again does nothing. */
  lemma DebounceFiresOnce(m: Machine)
    requires m.current == Idle
    ensures Run(m, [Hover, Hover, FireHoverDebounce, FireHoverDebounce]).1 == [StateChanged(Hovering)]
    ensures Run(m, [Hover, Hover, FireHoverDebounce, FireHoverDebounce]).0.current == Hovering
  {
    var ops := [Hover, Hover, FireHoverDebounce, FireHoverDebounce];
    var waiting := m.(hoverPending := true);
    var hovering := m.(hoverPending := false, previous := Idle, current := Hovering);
    assert [Hover][..0] == [];
    assert Run(m, [Hover]).0 == waiting && Run(m, [Hover]).1 == [];
    assert [Hover, Hover][..1] == [Hover];
    assert Run(m, [Hover, Hover]).0 == waiting && Run(m, [Hover, Hover]).1 == [];
    assert [Hover, Hover, FireHoverDebounce][..2] == [Hover, Hover];
    assert Run(m, [Hover, Hover, FireHoverDebounce]).0 == hovering;
    assert Run(m, [Hover, Hover, FireHoverDebounce]).1 == [StateChanged(Hovering)];
    assert ops[..3] == [Hover, Hover, FireHoverDebounce];
  }

  /** From hovering, toggling twice expands and comes back, announcing both moves. */
  lemma ToggleTwiceReturns(m: Machine)
    requires m.current == Hovering
    ensures Run(m, [ToggleExpand, ToggleExpand]).0.current == Hovering
    ensures Run(m, [ToggleExpand, ToggleExpand]).0.previous == Expanded
    ensures Run(m, [ToggleExpand, ToggleExpand]).1 == [StateChanged(Expanded), StateChanged(Hovering)]
  {
    assert [ToggleExpand, ToggleExpand][..1] == [ToggleExpand];
    assert [ToggleExpand][..0] == [];
  }

  /** `expand()` only acts from hovering; toggling does nothing while idle. */
  lemma ExpandOnlyFromHovering(m: Machine)
    ensures m.current != Hovering ==> Step(m, Expand) == (m, [])
    ensures m.current == Hovering ==> Step(m, Expand).0.current == Expanded
    ensures m.current == Idle ==> Step(m, ToggleExpand) == (m, [])
  {
  }

  // ---------------------------------------------------------------------------
  // The view-model object
  // ---------------------------------------------------------------------------

  class NotchViewModel {
    var currentState: NotchState
    var previousState: NotchState
    var notchGeometry: NotchGeometry
    var expandedHeight: real
    var panelWidth: real
    var isHUDVisible: bool
    /** `hoverDebounceTask` has been scheduled and neither fired nor been cancelled. */
    var hoverDebouncePending: bool
    /** The shared event bus the view-model sends on. */
    const bus: Bus

    /** The dimensions follow the state, and the debounce only waits while idle. */
    ghost predicate Valid()
      reads this
    {
      expandedHeight == ExpandedHeightFor(currentState)
      && panelWidth == PanelWidthFor(currentState, notchGeometry.notchWidth)
      && Inv(Snapshot())
    }

    function Snapshot(): Machine
      reads this
    {
      Machine(currentState, previousState, hoverDebouncePending)
    }

    /** `init()`: hovering, geometry detected from the first screen, dimensions set. */
    constructor (screen: Option<Screen>, bus: Bus)
      ensures Valid() && Snapshot() == Initial
      ensures notchGeometry == Detect(screen) && !isHUDVisible && this.bus == bus
      ensures panelWidth == notchGeometry.notchWidth + 2.0 * WingWidth && expandedHeight == 0.0
    {
      currentState := Hovering;
      previousState := Hovering;
      notchGeometry := Detect(screen);
      isHUDVisible := false;
      hoverDebouncePending := false;
      this.bus := bus;
      expandedHeight := 0.0;
      panelWidth := Detect(screen).notchWidth + WingWidth * 2.0;
    }

    /** `updatePanelDimensions()`. */
    method UpdatePanelDimensions()
      modifies this
      ensures expandedHeight == ExpandedHeightFor(currentState)
      ensures panelWidth == PanelWidthFor(currentState, notchGeometry.notchWidth)
      ensures currentState == old(currentState) && previousState == old(previousState)
      ensures notchGeometry == old(notchGeometry) && isHUDVisible == old(isHUDVisible)
      ensures hoverDebouncePending == old(hoverDebouncePending)
    {
      match currentState
      case Idle =>
        expandedHeight := 0.0;
        panelWidth := notchGeometry.notchWidth;
      case Hovering =>
        expandedHeight := 0.0;
        panelWidth := notchGeometry.notchWidth + WingWidth * 2.0;
      case Expanded =>
        expandedHeight := MaxExpandedHeight;
        panelWidth := notchGeometry.notchWidth + WingWidth * 2.0;
    }

    /** `performTransition(to:)`. */
    method PerformTransition(to: NotchState)
      requires expandedHeight == ExpandedHeightFor(currentState)
      requires panelWidth == PanelWidthFor(currentState, notchGeometry.notchWidth)
      modifies this, bus
      ensures Snapshot() == Transition(old(Snapshot()), to).0
      ensures bus.log == old(bus.log) + Transition(old(Snapshot()), to).1
      ensures expandedHeight == ExpandedHeightFor(currentState)
      ensures panelWidth == PanelWidthFor(currentState, notchGeometry.notchWidth)
      ensures notchGeometry == old(notchGeometry) && isHUDVisible == old(isHUDVisible)
    {
      if to == currentState {
        return;
      }
      if !IsValidTransition(currentState, to) {
        return;
      }
      previousState := currentState;
      currentState := to;
      UpdatePanelDimensions();
      bus.Send(StateChanged(to));
    }

    /** `hover()`: from idle, (re)start the 50 ms debounce. */
    method Hover()
      requires Valid()
      modifies this
      ensures Valid() && Snapshot() == Step(old(Snapshot()), Op.Hover).0
      ensures notchGeometry == old(notchGeometry) && isHUDVisible == old(isHUDVisible)
    {
      if currentState != Idle {
        return;
      }
      hoverDebouncePending := true;
    }

    /** The debounce task waking up without having been cancelled. */
    method FireHoverDebounce()
      requires Valid()
      modifies this, bus
      ensures Valid() && Snapshot() == Step(old(Snapshot()), Op.FireHoverDebounce).0
      ensures bus.log == old(bus.log) + Step(old(Snapshot()), Op.FireHoverDebounce).1
      ensures notchGeometry == old(notchGeometry) && isHUDVisible == old(isHUDVisible)
    {
      if !hoverDebouncePending {
        return;
      }
      hoverDebouncePending := false;
      PerformTransition(Hovering);
      StepKeepsInv(old(Snapshot()), Op.FireHoverDebounce);
    }

    /** `expand()`. */
    method Expand()
      requires Valid()
      modifies this, bus
      ensures Valid() && Snapshot() == Step(old(Snapshot()), Op.Expand).0
      ensures bus.log == old(bus.log) + Step(old(Snapshot()), Op.Expand).1
      ensures notchGeometry == old(notchGeometry) && isHUDVisible == old(isHUDVisible)
    {
      if currentState != Hovering {
        return;
      }
      hoverDebouncePending := false;
      PerformTransition(Expanded);
    }

    /** `collapse()`. */
    method Collapse()
      requires Valid()
      modifies this, bus
      ensures Valid() && Snapshot() == Step(old(Snapshot()), Op.Collapse).0
      ensures bus.log == old(bus.log) + Step(old(Snapshot()), Op.Collapse).1
      ensures notchGeometry == old(notchGeometry) && isHUDVisible == old(isHUDVisible)
    {
      hoverDebouncePending := false;
      PerformTransition(Hovering);
    }

    /** `toggleExpand()`. */
    method ToggleExpand()
      requires Valid()
      modifies this, bus
      ensures Valid() && Snapshot() == Step(old(Snapshot()), Op.ToggleExpand).0
      ensures bus.log == old(bus.log) + Step(old(Snapshot()), Op.ToggleExpand).1
      ensures notchGeometry == old(notchGeometry) && isHUDVisible == old(isHUDVisible)
    {
      match currentState
      case Hovering => Expand();
      case Expanded => Collapse();
      case Idle =>
    }

    /** The `hudTriggers` subscriber: a HUD is showing. */
    method OnHUDTriggered()
      modifies this
      ensures isHUDVisible
      ensures Snapshot() == old(Snapshot()) && notchGeometry == old(notchGeometry)
      ensures expandedHeight == old(expandedHeight) && panelWidth == old(panelWidth)
    {
      isHUDVisible := true;
    }

    /** `setHUDHidden()`. */
    method SetHUDHidden()
      modifies this
      ensures !isHUDVisible
      ensures Snapshot() == old(Snapshot()) && notchGeometry == old(notchGeometry)
      ensures expandedHeight == old(expandedHeight) && panelWidth == old(panelWidth)
    {
      isHUDVisible := false;
    }

    /** The screen-parameters observer: re-detect, resize, announce `screenChanged`. */
    method OnScreenParametersChanged(screen: Option<Screen>)
      requires Valid()
      modifies this, bus
      ensures Valid() && Snapshot() == old(Snapshot())
      ensures notchGeometry == Detect(screen) && isHUDVisible == old(isHUDVisible)
      ensures bus.log == old(bus.log) + [ScreenChanged]
    {
      notchGeometry := Detect(screen);
      UpdatePanelDimensions();
      bus.Send(ScreenChanged);
    }
  }
}
