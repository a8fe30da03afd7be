// The widget registry (NotchApp/Sources/Widgets/WidgetRegistry.swift): an
// ordered list of widgets, unique by id, with enable flags and the
// activate/deactivate calls the registry issues to them.
//
// Each `AnyNotchWidget` is a record whose `isEnabled` is the wrapped widget's
// flag as well (the wrapper mirrors every assignment into it). What a widget
// does when activated or deactivated is its own business; the registry's part
// is the sequence of those calls, kept as a log.
module Registry {
  import opened Wrappers

  datatype WidgetPosition = LeftWing | RightWing | Center

  datatype Widget = Widget(id: string, preferredPosition: WidgetPosition, isEnabled: bool)

  /** A call the registry makes on a widget. */
  datatype Lifecycle = Activate(id: string) | Deactivate(id: string)

  // ---------------------------------------------------------------------------
  // Queries
  // ---------------------------------------------------------------------------

  predicate HasId(ws: seq<Widget>, id: string)
  {
    exists k :: 0 <= k < |ws| && ws[k].id == id
  }

  predicate UniqueIds(ws: seq<Widget>)
  {
    forall i, j :: 0 <= i < j < |ws| ==> ws[i].id != ws[j].id
  }

  /** The position of the first widget with `id` (`first(where:)`). */
  function FirstIndex(ws: seq<Widget>, id: string): (r: Option<nat>)
    ensures r.Some? ==> r.value < |ws| && ws[r.value].id == id
                        && forall j :: 0 <= j < r.value ==> ws[j].id != id
    ensures r.None? <==> !HasId(ws, id)
  {
    if ws == [] then None
    else if ws[0].id == id then Some(0)
    else match FirstIndex(ws[1..], id)
      case None => None
      case Some(k) => Some(k + 1)
  }

  /** `widget(for:)`. */
  function Lookup(ws: seq<Widget>, id: string): Option<Widget>
  {
    match FirstIndex(ws, id)
    case None => None
    case Some(k) => Some(ws[k])
  }

  /** `enabledWidgets`. */
  function Enabled(ws: seq<Widget>): seq<Widget>
  {
    if ws == [] then []
    else Enabled(ws[..|ws| - 1]) + (if ws[|ws| - 1].isEnabled then [ws[|ws| - 1]] else [])
  }

  /** `widgets(for:)`. */
  function AtPosition(ws: seq<Widget>, p: WidgetPosition): seq<Widget>
  {
    if ws == [] then []
    else
      var w := ws[|ws| - 1];
      AtPosition(ws[..|ws| - 1], p) + (if w.isEnabled && w.preferredPosition == p then [w] else [])
  }

  /** `removeAll { $0.id == id }`. */
  function Without(ws: seq<Widget>, id: string): seq<Widget>
  {
    if ws == [] then []
    else Without(ws[..|ws| - 1], id) + (if ws[|ws| - 1].id == id then [] else [ws[|ws| - 1]])
  }

  /** The calls a loop makes over `ws`: `make(w.id)` for each, in order. */
  function Calls(ws: seq<Widget>, activate: bool): (r: seq<Lifecycle>)
    ensures |r| == |ws|
  {
    if ws == [] then []
    else
      var w := ws[|ws| - 1];
      Calls(ws[..|ws| - 1], activate) + [if activate then Activate(w.id) else Deactivate(w.id)]
  }

  // ---------------------------------------------------------------------------
  // Steps
  // ---------------------------------------------------------------------------

  /** `register(_:)`. */
  function Registered(ws: seq<Widget>, w: Widget): seq<Widget>
  {
    if HasId(ws, w.id) then ws else ws + [w]
  }

  /** `enable(id:)` / `disable(id:)` on the list: the first widget with `id` gets the flag. */
  function SetEnabled(ws: seq<Widget>, id: string, on: bool): seq<Widget>
  {
    match FirstIndex(ws, id)
    case None => ws
    case Some(k) => ws[k := ws[k].(isEnabled := on)]
  }

  // ---------------------------------------------------------------------------
  // Properties
  // ---------------------------------------------------------------------------

  /** Filters distribute over concatenation, which is what "order-preserving" means. */
  lemma FiltersDistribute(a: seq<Widget>, b: seq<Widget>, id: string, p: WidgetPosition)
    ensures Enabled(a + b) == Enabled(a) + Enabled(b)
    ensures AtPosition(a + b, p) == AtPosition(a, p) + AtPosition(b, p)
    ensures Without(a + b, id) == Without(a, id) + Without(b, id)
  {
    EnabledDistributes(a, b);
    AtPositionDistributes(a, b, p);
    WithoutDistributes(a, b, id);
  }

  lemma {:induction false} EnabledDistributes(a: seq<Widget>, b: seq<Widget>)
    ensures Enabled(a + b) == Enabled(a) + Enabled(b)
    decreases |b|
  {
    if b != [] {
      var n := |b| - 1;
      assert (a + b)[..|a + b| - 1] == a + b[..n];
      EnabledDistributes(a, b[..n]);
    } else {
      assert a + b == a;
    }
  }

  lemma {:induction false} AtPositionDistributes(a: seq<Widget>, b: seq<Widget>, p: WidgetPosition)
    ensures AtPosition(a + b, p) == AtPosition(a, p) + AtPosition(b, p)
    decreases |b|
  {
    if b != [] {
      var n := |b| - 1;
      assert (a + b)[..|a + b| - 1] == a + b[..n];
      AtPositionDistributes(a, b[..n], p);
    } else {
      assert a + b == a;
    }
  }

  lemma {:induction false} WithoutDistributes(a: seq<Widget>, b: seq<Widget>, id: string)
    ensures Without(a + b, id) == Without(a, id) + Without(b, id)
    decreases |b|
  {
    if b != [] {
      var n := |b| - 1;
      assert (a + b)[..|a + b| - 1] == a + b[..n];
      WithoutDistributes(a, b[..n], id);
    } else {
      assert a + b == a;
    }
  }

  /** `enabledWidgets` keeps exactly the enabled widgets. */
  lemma {:induction false} EnabledMembers(ws: seq<Widget>, w: Widget)
    ensures w in Enabled(ws) <==> w in ws && w.isEnabled
    ensures |Enabled(ws)| <= |ws|
  {
    if ws != [] {
      var n := |ws| - 1;
      EnabledMembers(ws[..n], w);
      assert ws == ws[..n] + [ws[n]];
    }
  }

  /** `widgets(for:)` keeps exactly the enabled widgets at that position. */
  lemma {:induction false} AtPositionMembers(ws: seq<Widget>, p: WidgetPosition, w: Widget)
    ensures w in AtPosition(ws, p) <==> w in ws && w.isEnabled && w.preferredPosition == p
  {
    if ws != [] {
      var n := |ws| - 1;
      AtPositionMembers(ws[..n], p, w);
      assert ws == ws[..n] + [ws[n]];
    }
  }

  /** The three positions split the enabled widgets between them. */
  lemma {:induction false} PositionsPartitionEnabled(ws: seq<Widget>)
    ensures |AtPosition(ws, LeftWing)| + |AtPosition(ws, RightWing)| + |AtPosition(ws, Center)| == |Enabled(ws)|
  {
    if ws != [] {
      PositionsPartitionEnabled(ws[..|ws| - 1]);
    }
  }

  /** `removeAll` keeps exactly the widgets with another id. */
  lemma {:induction false} WithoutMembers(ws: seq<Widget>, id: string, w: Widget)
    ensures w in Without(ws, id) <==> w in ws && w.id != id
  {
    if ws != [] {
      var n := |ws| - 1;
      WithoutMembers(ws[..n], id, w);
      assert ws == ws[..n] + [ws[n]];
    }
  }

  /** Removing keeps ids unique and leaves no widget with that id. */
  lemma {:induction false} WithoutKeepsUnique(ws: seq<Widget>, id: string)
    requires UniqueIds(ws)
    ensures UniqueIds(Without(ws, id)) && !HasId(Without(ws, id), id)
    ensures |Without(ws, id)| == if HasId(ws, id) then |ws| - 1 else |ws|
  {
    if ws != [] {
      var n := |ws| - 1;
      var rest := Without(ws[..n], id);
      WithoutKeepsUnique(ws[..n], id);
      forall k | 0 <= k < |rest| ensures rest[k].id != ws[n].id {
        WithoutMembers(ws[..n], id, rest[k]);
        var j :| 0 <= j < n && ws[..n][j] == rest[k];
      }
      if HasId(ws[..n], id) {
        var j :| 0 <= j < n && ws[..n][j].id == id;
        assert ws[j].id == id;
      } else if ws[n].id == id {
        assert HasId(ws, id);
      } else {
        forall k | 0 <= k < |ws| ensures ws[k].id != id {
          if k < n { assert ws[..n][k] == ws[k]; }
        }
      }
    }
  }

  /** Registering keeps ids unique; a known id changes nothing and a new one is appended. */
  lemma RegisterKeepsUnique(ws: seq<Widget>, w: Widget)
    requires UniqueIds(ws)
    ensures UniqueIds(Registered(ws, w))
    ensures HasId(ws, w.id) ==> Registered(ws, w) == ws
    ensures !HasId(ws, w.id) ==> Registered(ws, w) == ws + [w] && Lookup(Registered(ws, w), w.id) == Some(w)
  {
    if !HasId(ws, w.id) {
      var r := ws + [w];
      assert r[|ws|].id == w.id;
      var k := FirstIndex(r, w.id).value;
      assert k == |ws|;
    }
  }

  /**
   * `widget(for:)` finds the widget with that id when ids are unique, and
   * nothing otherwise.
   */
  lemma LookupFinds(ws: seq<Widget>, k: nat)
    requires UniqueIds(ws) && k < |ws|
    ensures Lookup(ws, ws[k].id) == Some(ws[k])
  {
  }

  /**
   * Enabling or disabling sets the flag of the widget with that id and of no
   * other; the order, ids and positions stay as they were.
   */
  lemma SetEnabledSpec(ws: seq<Widget>, id: string, on: bool)
    requires UniqueIds(ws)
    ensures var r := SetEnabled(ws, id, on);
      |r| == |ws| && UniqueIds(r)
      && (forall k :: 0 <= k < |ws| ==> r[k].id == ws[k].id && r[k].preferredPosition == ws[k].preferredPosition)
      && (forall k :: 0 <= k < |ws| && ws[k].id != id ==> r[k] == ws[k])
      && (forall k :: 0 <= k < |ws| && ws[k].id == id ==> r[k].isEnabled == on)
      && (!HasId(ws, id) ==> r == ws)
  {
  }

  /** `activateAll` calls `activate` on exactly the enabled widgets; `deactivateAll` on all of them. */
  lemma {:induction false} CallsTarget(ws: seq<Widget>, activate: bool, k: nat)
    requires k < |ws|
    ensures Calls(ws, activate)[k] == (if activate then Activate(ws[k].id) else Deactivate(ws[k].id))
  {
    if k < |ws| - 1 {
      CallsTarget(ws[..|ws| - 1], activate, k);
    }
  }

  // ---------------------------------------------------------------------------
  // The registry object
  // ---------------------------------------------------------------------------

  class WidgetRegistry {
    var widgets: seq<Widget>
    /** The activate/deactivate calls made so far, oldest first. */
    var calls: seq<Lifecycle>

    ghost predicate Valid()
      reads this
    {
      UniqueIds(widgets)
    }

    constructor ()
      ensures Valid() && widgets == [] && calls == []
    {
      widgets := [];
      calls := [];
    }

    /** `register(_:)`. */
    method Register(w: Widget)
      requires Valid()
      modifies this
      ensures Valid()
      ensures widgets == Registered(old(widgets), w) && calls == old(calls)
    {
      RegisterKeepsUnique(widgets, w);
      var i := 0;
      while i < |widgets|
        invariant 0 <= i <= |widgets|
        invariant forall j :: 0 <= j < i ==> widgets[j].id != w.id
      {
        if widgets[i].id == w.id {
          return;
        }
        i := i + 1;
      }
      widgets := widgets + [w];
    }

    /** `widget(for:)`. */
    method WidgetFor(id: string) returns (r: Option<Widget>)
      ensures r == Lookup(widgets, id)
    {
      var i := 0;
      while i < |widgets|
        invariant 0 <= i <= |widgets|
        invariant forall j :: 0 <= j < i ==> widgets[j].id != id
      {
        if widgets[i].id == id {
          assert FirstIndex(widgets, id) == Some(i);
          return Some(widgets[i]);
        }
        i := i + 1;
      }
      r := None;
    }

    /** `enabledWidgets`. */
    method EnabledWidgets() returns (r: seq<Widget>)
      ensures r == Enabled(widgets)
    {
      r := [];
      var i := 0;
      while i < |widgets|
        invariant 0 <= i <= |widgets| && r == Enabled(widgets[..i])
      {
        assert widgets[..i + 1][..i] == widgets[..i];
        if widgets[i].isEnabled {
          r := r + [widgets[i]];
        }
        i := i + 1;
      }
      assert widgets[..i] == widgets;
    }

    /** `widgets(for:)`. */
    method WidgetsFor(p: WidgetPosition) returns (r: seq<Widget>)
      ensures r == AtPosition(widgets, p)
    {
      r := [];
      var i := 0;
      while i < |widgets|
        invariant 0 <= i <= |widgets| && r == AtPosition(widgets[..i], p)
      {
        assert widgets[..i + 1][..i] == widgets[..i];
        if widgets[i].isEnabled && widgets[i].preferredPosition == p {
          r := r + [widgets[i]];
        }
        i := i + 1;
      }
      assert widgets[..i] == widgets;
    }

    /** `unregister(id:)`: deactivate the first widget with the id, then remove every one. */
    method Unregister(id: string)
      requires Valid()
      modifies this
      ensures Valid()
      ensures widgets == Without(old(widgets), id)
      ensures calls == old(calls) + (if HasId(old(widgets), id) then [Deactivate(id)] else [])
    {
      WithoutKeepsUnique(widgets, id);
      var found := WidgetFor(id);
      if found.Some? {
        calls := calls + [Deactivate(found.value.id)];
      }
      var kept := [];
      var i := 0;
      while i < |widgets|
        modifies {}
        invariant 0 <= i <= |widgets| && kept == Without(widgets[..i], id)
      {
        assert widgets[..i + 1][..i] == widgets[..i];
        if widgets[i].id != id {
          kept := kept + [widgets[i]];
        }
        i := i + 1;
      }
      assert widgets[..i] == widgets;
      widgets := kept;
    }

    /** `activateAll()`. */
    method ActivateAll()
      modifies this
      ensures widgets == old(widgets)
      ensures calls == old(calls) + Calls(Enabled(widgets), true)
    {
      var enabled := EnabledWidgets();
      var i := 0;
      while i < |enabled|
        invariant 0 <= i <= |enabled| && widgets == old(widgets)
        invariant calls == old(calls) + Calls(enabled[..i], true)
      {
        assert enabled[..i + 1][..i] == enabled[..i];
        calls := calls + [Activate(enabled[i].id)];
        i := i + 1;
      }
      assert enabled[..i] == enabled;
    }

    /** `deactivateAll()`. */
    method DeactivateAll()
      modifies this
      ensures widgets == old(widgets)
      ensures calls == old(calls) + Calls(widgets, false)
    {
      var i := 0;
      while i < |widgets|
        invariant 0 <= i <= |widgets| && widgets == old(widgets)
        invariant calls == old(calls) + Calls(widgets[..i], false)
      {
        assert widgets[..i + 1][..i] == widgets[..i];
        calls := calls + [Deactivate(widgets[i].id)];
        i := i + 1;
      }
      assert widgets[..i] == widgets;
    }

    /** `enable(id:)`. */
    method Enable(id: string)
      requires Valid()
      modifies this
      ensures Valid()
      ensures widgets == SetEnabled(old(widgets), id, true)
      ensures calls == old(calls) + (if HasId(old(widgets), id) then [Activate(id)] else [])
    {
      SetEnabledSpec(widgets, id, true);
      var i := 0;
      while i < |widgets|
        invariant 0 <= i <= |widgets|
        invariant forall j :: 0 <= j < i ==> widgets[j].id != id
      {
        if widgets[i].id == id {
          assert FirstIndex(widgets, id) == Some(i);
          widgets := widgets[i := widgets[i].(isEnabled := true)];
          calls := calls + [Activate(id)];
          return;
        }
        i := i + 1;
      }
    }

    /** `disable(id:)`. */
    method Disable(id: string)
      requires Valid()
      modifies this
      ensures Valid()
      ensures widgets == SetEnabled(old(widgets), id, false)
      ensures calls == old(calls) + (if HasId(old(widgets), id) then [Deactivate(id)] else [])
    {
      SetEnabledSpec(widgets, id, false);
      var i := 0;
      while i < |widgets|
        invariant 0 <= i <= |widgets|
        invariant forall j :: 0 <= j < i ==> widgets[j].id != id
      {
        if widgets[i].id == id {
          assert FirstIndex(widgets, id) == Some(i);
          widgets := widgets[i := widgets[i].(isEnabled := false)];
          calls := calls + [Deactivate(id)];
          return;
        }
        i := i + 1;
      }
    }

    /** `registerDefaults()`. */
    method RegisterDefaults()
      requires Valid()
      modifies this
      ensures Valid() && calls == old(calls)
      ensures widgets == WithDefaults(old(widgets))
    {
      Register(Defaults[0]);
      Register(Defaults[1]);
      Register(Defaults[2]);
      Register(Defaults[3]);
      Register(Defaults[4]);
    }
  }

  /** The built-in widgets, in registration order, as each declares itself. */
  const Defaults: seq<Widget> := [
    Widget("music-player", RightWing, true),
    Widget("hud", Center, true),
    Widget("file-shelf", LeftWing, true),
    Widget("timer", LeftWing, true),
    Widget("downloads", LeftWing, true)
  ]

  /** The list after registering each default in turn. */
  function WithDefaults(ws: seq<Widget>): seq<Widget>
  {
    Registered(Registered(Registered(Registered(Registered(ws, Defaults[0]), Defaults[1]), Defaults[2]),
                          Defaults[3]), Defaults[4])
  }

  /** Two ids that start with different letters differ. */
  lemma DistinctIds(a: string, b: string)
    requires |a| > 0 && |b| > 0 && a[0] != b[0]
    ensures a != b
  {
  }

  /** Registering the defaults into an empty registry adds all five, in order, under distinct ids. */
  lemma DefaultsRegistered()
    ensures WithDefaults([]) == Defaults && UniqueIds(Defaults)
  {
    var d := Defaults;
    assert d[0].id[0] == 'm' && d[1].id[0] == 'h' && d[2].id[0] == 'f' && d[3].id[0] == 't' && d[4].id[0] == 'd';
    forall i, j | 0 <= i < j < 5 ensures d[i].id != d[j].id {
      DistinctIds(d[i].id, d[j].id);
    }
    var w1 := Registered([], d[0]);
    assert w1 == [d[0]];
    var w2 := Registered(w1, d[1]);
    assert !HasId(w1, d[1].id);
    var w3 := Registered(w2, d[2]);
    assert !HasId(w2, d[2].id);
    var w4 := Registered(w3, d[3]);
    assert !HasId(w3, d[3].id);
    assert !HasId(w4, d[4].id);
    assert w4 + [d[4]] == d;
  }

  lemma AtPositionSingle(w: Widget, p: WidgetPosition)
    ensures AtPosition([w], p) == if w.isEnabled && w.preferredPosition == p then [w] else []
  {
    assert [w][..0] == [];
  }

  /** The defaults at a position, widget by widget. */
  lemma DefaultsAt(p: WidgetPosition)
    ensures var d := Defaults;
      AtPosition(d, p) == AtPosition([d[0]], p) + AtPosition([d[1]], p) + AtPosition([d[2]], p)
                          + AtPosition([d[3]], p) + AtPosition([d[4]], p)
  {
    var d := Defaults;
    AtPositionDistributes([d[0], d[1]], [d[2], d[3], d[4]], p);
    assert [d[0], d[1]] + [d[2], d[3], d[4]] == d;
    AtPositionDistributes([d[0]], [d[1]], p);
    assert [d[0]] + [d[1]] == [d[0], d[1]];
    AtPositionDistributes([d[2]], [d[3], d[4]], p);
    assert [d[2]] + [d[3], d[4]] == [d[2], d[3], d[4]];
    AtPositionDistributes([d[3]], [d[4]], p);
    assert [d[3]] + [d[4]] == [d[3], d[4]];
  }

  /** The defaults at one position, in registration order. */
  lemma DefaultsOnlyAt(p: WidgetPosition)
    ensures p == RightWing ==> AtPosition(Defaults, p) == [Defaults[0]]
    ensures p == Center ==> AtPosition(Defaults, p) == [Defaults[1]]
    ensures p == LeftWing ==> AtPosition(Defaults, p) == [Defaults[2], Defaults[3], Defaults[4]]
  {
    var d := Defaults;
    DefaultsAt(p);
    AtPositionSingle(d[0], p);
    AtPositionSingle(d[1], p);
    AtPositionSingle(d[2], p);
    AtPositionSingle(d[3], p);
    AtPositionSingle(d[4], p);
  }

  /**
   * On an empty registry the defaults are all registered, the music player is
   * the only right-wing widget, the HUD the only centre one, and the shelf,
   * timer and downloads share the left wing in that order.
   */
  lemma DefaultLayout()
    ensures WithDefaults([]) == Defaults && UniqueIds(Defaults)
    ensures AtPosition(Defaults, RightWing) == [Defaults[0]]
    ensures AtPosition(Defaults, Center) == [Defaults[1]]
    ensures AtPosition(Defaults, LeftWing) == [Defaults[2], Defaults[3], Defaults[4]]
  {
    DefaultsRegistered();
    DefaultsOnlyAt(RightWing);
    DefaultsOnlyAt(Center);
    DefaultsOnlyAt(LeftWing);
  }
}
