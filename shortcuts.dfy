// The global keyboard shortcut (NotchApp/Sources/Core/Settings/ShortcutManager.swift):
// the shortcut's display string, the test a key-down event must pass, and the
// manager that keeps one global key-down monitor and toggles the panel.
//
// Modifier flags are `NSEvent.ModifierFlags` raw values, 64 bits wide. The
// system's list of installed monitors is a map from monitor handle to the
// shortcut its closure captured.
module Shortcuts {
  import opened Wrappers
  import opened Text
  import opened Events
  import Panel

  type Flags = bv64

  const CapsLock: Flags := 0x1_0000
  const Shift: Flags := 0x2_0000
  const Control: Flags := 0x4_0000
  const Option: Flags := 0x8_0000
  const Command: Flags := 0x10_0000
  /** `NSEvent.ModifierFlags.deviceIndependentFlagsMask`. */
  const DeviceIndependentMask: Flags := 0xFFFF_0000

  /** The four modifiers the display string shows. */
  const Shown: Flags := Command | Shift | Option | Control

  /** `ModifierFlags.contains(_:)` for one flag. */
  predicate Has(flags: Flags, m: Flags)
  {
    flags & m == m
  }

  // Carbon virtual key codes.
  const KeyN := 45
  const KeyM := 46
  const KeyP := 35
  const KeySpace := 49
  const KeyReturn := 36
  const KeyEscape := 53

  datatype Shortcut = Shortcut(keyCode: nat, modifiers: Flags)

  /** `KeyboardShortcut.default`: Command-Shift-N. */
  const Default := Shortcut(KeyN, Command | Shift)

  // ---------------------------------------------------------------------------
  // The display string
  // ---------------------------------------------------------------------------

  const CommandGlyph := '\U{2318}'
  const ShiftGlyph := '\U{21E7}'
  const OptionGlyph := '\U{2325}'
  const ControlGlyph := '\U{2303}'

  /** The key's name in the display string. */
  function KeyName(keyCode: nat): string
  {
    if keyCode == KeyN then "N"
    else if keyCode == KeyM then "M"
    else if keyCode == KeyP then "P"
    else if keyCode == KeySpace then "Space"
    else if keyCode == KeyReturn then "Return"
    else if keyCode == KeyEscape then "Esc"
    else "?"
  }

  /** The key code a name stands for, for the six named keys. */
  function KeyCodeNamed(name: string): Option<nat>
  {
    if name == "N" then Some(KeyN)
    else if name == "M" then Some(KeyM)
    else if name == "P" then Some(KeyP)
    else if name == "Space" then Some(KeySpace)
    else if name == "Return" then Some(KeyReturn)
    else if name == "Esc" then Some(KeyEscape)
    else None
  }

  /** The six named keys read back from their names; every other key shows as "?". */
  lemma KeyNameRoundTrip(keyCode: nat)
    ensures keyCode in {KeyN, KeyM, KeyP, KeySpace, KeyReturn, KeyEscape} ==> KeyCodeNamed(KeyName(keyCode)) == Some(keyCode)
    ensures keyCode !in {KeyN, KeyM, KeyP, KeySpace, KeyReturn, KeyEscape} ==> KeyName(keyCode) == "?" && KeyCodeNamed("?") == None
  {
  }

  /** `displayString`: the glyphs of the modifiers present, then the key name, joined. */
  function DisplayString(s: Shortcut): string
  {
    var parts := (if Has(s.modifiers, Command) then [[CommandGlyph]] else [])
      + (if Has(s.modifiers, Shift) then [[ShiftGlyph]] else [])
      + (if Has(s.modifiers, Option) then [[OptionGlyph]] else [])
      + (if Has(s.modifiers, Control) then [[ControlGlyph]] else []);
    Join(parts + [KeyName(s.keyCode)], "")
  }

  /** Which of the four shown modifiers a set of flags holds. */
  datatype ShownModifiers = ShownModifiers(command: bool, shift: bool, option: bool, control: bool)

  function ShownOf(m: Flags): ShownModifiers
  {
    ShownModifiers(Has(m, Command), Has(m, Shift), Has(m, Option), Has(m, Control))
  }

  /** Two sets of flags agree on the four shown modifiers exactly when their shown bits agree. */
  lemma ShownOfIsShownBits(m1: Flags, m2: Flags)
    ensures ShownOf(m1) == ShownOf(m2) <==> m1 & Shown == m2 & Shown
  {
  }

  /** Reading one optional glyph off the front of a string. */
  function TakeGlyph(text: string, glyph: char): (bool, string)
  {
    if |text| > 0 && text[0] == glyph then (true, text[1..]) else (false, text)
  }

  /** Reading a display string back: the glyphs in their fixed order, then the key name. */
  function ReadDisplay(text: string): (ShownModifiers, string)
  {
    var a := TakeGlyph(text, CommandGlyph);
    var b := TakeGlyph(a.1, ShiftGlyph);
    var c := TakeGlyph(b.1, OptionGlyph);
    var d := TakeGlyph(c.1, ControlGlyph);
    (ShownModifiers(a.0, b.0, c.0, d.0), d.1)
  }

  /** Joining without a separator is concatenation. */
  lemma {:induction false} JoinNothing(parts: seq<string>, last: string)
    ensures Join(parts + [last], "") == Join(parts, "") + last
    decreases |parts|
  {
    if |parts| == 1 {
      assert parts + [last] == [parts[0], last];
    } else if |parts| > 1 {
      assert (parts + [last])[1..] == parts[1..] + [last];
      JoinNothing(parts[1..], last);
    } else {
      assert parts + [last] == [last];
    }
  }

  /** An optional glyph. */
  function GlyphIf(present: bool, glyph: char): string
  {
    if present then [glyph] else []
  }

  /** The glyph prefix of the display string. */
  function Glyphs(g: ShownModifiers): string
  {
    GlyphIf(g.command, CommandGlyph) + GlyphIf(g.shift, ShiftGlyph)
    + GlyphIf(g.option, OptionGlyph) + GlyphIf(g.control, ControlGlyph)
  }

  /** The display string is the glyph prefix followed by the key name. */
  lemma DisplayIsGlyphsThenKey(s: Shortcut)
    ensures DisplayString(s) == Glyphs(ShownOf(s.modifiers)) + KeyName(s.keyCode)
  {
    var m := s.modifiers;
    var p1 := if Has(m, Command) then [[CommandGlyph]] else [];
    var p2 := p1 + if Has(m, Shift) then [[ShiftGlyph]] else [];
    var p3 := p2 + if Has(m, Option) then [[OptionGlyph]] else [];
    var p4 := p3 + if Has(m, Control) then [[ControlGlyph]] else [];
    var g1 := GlyphIf(Has(m, Command), CommandGlyph);
    var g2 := g1 + GlyphIf(Has(m, Shift), ShiftGlyph);
    var g3 := g2 + GlyphIf(Has(m, Option), OptionGlyph);
    var g4 := g3 + GlyphIf(Has(m, Control), ControlGlyph);
    assert Join(p1, "") == g1;
    if Has(m, Shift) { JoinNothing(p1, [ShiftGlyph]); } else { assert p2 == p1; }
    assert Join(p2, "") == g2;
    if Has(m, Option) { JoinNothing(p2, [OptionGlyph]); } else { assert p3 == p2; }
    assert Join(p3, "") == g3;
    if Has(m, Control) { JoinNothing(p3, [ControlGlyph]); } else { assert p4 == p3; }
    assert Join(p4, "") == g4;
    JoinNothing(p4, KeyName(s.keyCode));
  }

  /** A key name is never empty and never starts with a modifier glyph. */
  lemma KeyNameIsPlain(keyCode: nat)
    ensures var k := KeyName(keyCode);
      |k| > 0 && k[0] != CommandGlyph && k[0] != ShiftGlyph && k[0] != OptionGlyph && k[0] != ControlGlyph
  {
    var k := KeyName(keyCode);
    assert k[0] in "NMPSRE?";
  }

  /** An optional glyph is read off exactly when it is there. */
  lemma TakeOne(present: bool, glyph: char, rest: string)
    requires rest == [] || rest[0] != glyph
    ensures TakeGlyph(GlyphIf(present, glyph) + rest, glyph) == (present, rest)
  {
    if present {
      assert ([glyph] + rest)[1..] == rest;
    } else {
      assert [] + rest == rest;
    }
  }

  /** Glyphs followed by a plain key name read back as the shown modifiers and the name. */
  lemma ReadGlyphsThenKey(g: ShownModifiers, k: string)
    requires |k| > 0 && k[0] != CommandGlyph && k[0] != ShiftGlyph && k[0] != OptionGlyph && k[0] != ControlGlyph
    ensures ReadDisplay(Glyphs(g) + k) == (g, k)
  {
    var r3 := GlyphIf(g.control, ControlGlyph) + k;
    var r2 := GlyphIf(g.option, OptionGlyph) + r3;
    var r1 := GlyphIf(g.shift, ShiftGlyph) + r2;
    assert Glyphs(g) + k == GlyphIf(g.command, CommandGlyph) + r1;
    TakeOne(g.command, CommandGlyph, r1);
    TakeOne(g.shift, ShiftGlyph, r2);
    TakeOne(g.option, OptionGlyph, r3);
    TakeOne(g.control, ControlGlyph, k);
  }

  /**
   * The display string reads back as the four shown modifiers and the key
   * name: the glyphs appear exactly for the modifiers present, in the fixed
   * order Command, Shift, Option, Control, and the key name follows them.
   */
  lemma DisplayReadsBack(s: Shortcut)
    ensures ReadDisplay(DisplayString(s)) == (ShownOf(s.modifiers), KeyName(s.keyCode))
  {
    DisplayIsGlyphsThenKey(s);
    KeyNameIsPlain(s.keyCode);
    ReadGlyphsThenKey(ShownOf(s.modifiers), KeyName(s.keyCode));
  }

  /** Two shortcuts show the same string exactly when they agree on the shown modifiers and the key name. */
  lemma DisplayDistinguishes(s: Shortcut, t: Shortcut)
    ensures DisplayString(s) == DisplayString(t) <==>
              s.modifiers & Shown == t.modifiers & Shown && KeyName(s.keyCode) == KeyName(t.keyCode)
  {
    DisplayReadsBack(s);
    DisplayReadsBack(t);
    ShownOfIsShownBits(s.modifiers, t.modifiers);
    DisplayIsGlyphsThenKey(s);
    DisplayIsGlyphsThenKey(t);
  }

  /** The default shortcut shows as Command, Shift, N. */
  lemma DefaultDisplay()
    ensures DisplayString(Default) == [CommandGlyph, ShiftGlyph] + "N"
  {
    DisplayIsGlyphsThenKey(Default);
  }

  // ---------------------------------------------------------------------------
  // Matching a key-down event
  // ---------------------------------------------------------------------------

  /** The monitor's test: the same key, and exactly the shortcut's device-independent modifiers. */
  predicate Matches(s: Shortcut, keyCode: nat, flags: Flags)
  {
    keyCode == s.keyCode && flags & DeviceIndependentMask == s.modifiers
  }

  /**
   * Device-dependent bits (the low sixteen) never matter; any extra
   * device-independent modifier, Caps Lock included, blocks the shortcut.
   */
  lemma MatchIsExact(s: Shortcut, keyCode: nat, flags: Flags, extra: Flags)
    ensures extra & DeviceIndependentMask == 0 ==> (Matches(s, keyCode, flags | extra) <==> Matches(s, keyCode, flags))
    ensures Matches(s, keyCode, flags) && extra & DeviceIndependentMask != 0 && s.modifiers & extra == 0 ==>
              !Matches(s, keyCode, flags | extra)
  {
  }

  /** Command-Shift-N triggers the default shortcut; with Caps Lock on, or Option added, it does not. */
  lemma DefaultMatches()
    ensures Matches(Default, KeyN, Command | Shift)
    ensures !Matches(Default, KeyN, Command | Shift | CapsLock)
    ensures !Matches(Default, KeyN, Command | Shift | Option)
    ensures !Matches(Default, KeyM, Command | Shift)
  {
    MatchIsExact(Default, KeyN, Command | Shift, CapsLock);
    MatchIsExact(Default, KeyN, Command | Shift, Option);
  }

  /** A shortcut whose modifiers include a device-dependent bit can never trigger. */
  lemma DeviceBitsNeverMatch(s: Shortcut, keyCode: nat, flags: Flags)
    requires s.modifiers & !DeviceIndependentMask != 0
    ensures !Matches(s, keyCode, flags)
  {
  }

  // ---------------------------------------------------------------------------
  // The manager as a value
  // ---------------------------------------------------------------------------

  /** The handle the manager holds, the current shortcut, the installed monitors and the next handle. */
  datatype Manager = Manager(eventHandler: Option<nat>, currentShortcut: Shortcut,
                             installed: map<nat, Shortcut>, nextHandle: nat)

  const Initial := Manager(None, Default, map[], 0)

  /** At most the one monitor the manager holds is installed, and it tests the current shortcut. */
  predicate Inv(m: Manager)
  {
    (m.eventHandler.None? ==> m.installed == map[])
    && (m.eventHandler.Some? ==>
          m.installed == map[m.eventHandler.value := m.currentShortcut] && m.eventHandler.value < m.nextHandle)
  }

  /** `registerGlobalShortcut(_:)`: remove the held monitor, install a new one. */
  function RegisterStep(m: Manager, s: Shortcut): Manager
  {
    var kept := if m.eventHandler.Some? then m.installed - {m.eventHandler.value} else m.installed;
    m.(eventHandler := Some(m.nextHandle), installed := kept[m.nextHandle := s], nextHandle := m.nextHandle + 1)
  }

  /** `teardown()`. */
  function TeardownStep(m: Manager): Manager
  {
    if m.eventHandler.Some? then m.(eventHandler := None, installed := m.installed - {m.eventHandler.value}) else m
  }

  /** `setCustomShortcut(_:)`. */
  function SetCustomStep(m: Manager, s: Shortcut): Manager
  {
    RegisterStep(m.(currentShortcut := s), s)
  }

  datatype ShortcutOp = Setup | Teardown | SetCustom(s: Shortcut)

  function Apply(m: Manager, op: ShortcutOp): Manager
  {
    match op
    case Setup => RegisterStep(m, m.currentShortcut)
    case Teardown => TeardownStep(m)
    case SetCustom(s) => SetCustomStep(m, s)
  }

  function Run(m: Manager, ops: seq<ShortcutOp>): Manager
  {
    if ops == [] then m else Apply(Run(m, ops[..|ops| - 1]), ops[|ops| - 1])
  }

  /** Whether some installed monitor passes a key-down event on. */
  predicate Fires(m: Manager, keyCode: nat, flags: Flags)
  {
    exists h :: h in m.installed && Matches(m.installed[h], keyCode, flags)
  }

  /** Every operation keeps at most one monitor installed, testing the current shortcut. */
  lemma ApplyKeepsInv(m: Manager, op: ShortcutOp)
    requires Inv(m)
    ensures Inv(Apply(m, op))
  {
    match op
    case Setup =>
    case Teardown =>
    case SetCustom(s) =>
  }

  lemma {:induction false} RunKeepsInv(ops: seq<ShortcutOp>)
    ensures Inv(Run(Initial, ops))
  {
    if ops != [] {
      RunKeepsInv(ops[..|ops| - 1]);
      ApplyKeepsInv(Run(Initial, ops[..|ops| - 1]), ops[|ops| - 1]);
    }
  }

  /**
   * An event toggles the panel exactly when a monitor is held and the event
   * matches the current shortcut; after teardown nothing fires.
   */
  lemma FiresIffCurrent(m: Manager, keyCode: nat, flags: Flags)
    requires Inv(m)
    ensures Fires(m, keyCode, flags) <==> m.eventHandler.Some? && Matches(m.currentShortcut, keyCode, flags)
    ensures !Fires(TeardownStep(m), keyCode, flags)
  {
    if m.eventHandler.Some? && Matches(m.currentShortcut, keyCode, flags) {
      assert m.eventHandler.value in m.installed;
    }
  }

  /** After `setCustomShortcut(s)` the shortcut is `s` and only `s` fires. */
  lemma SetCustomTakesOver(m: Manager, s: Shortcut, keyCode: nat, flags: Flags)
    requires Inv(m)
    ensures SetCustomStep(m, s).currentShortcut == s && Inv(SetCustomStep(m, s))
    ensures Fires(SetCustomStep(m, s), keyCode, flags) <==> Matches(s, keyCode, flags)
  {
    ApplyKeepsInv(m, SetCustom(s));
    FiresIffCurrent(SetCustomStep(m, s), keyCode, flags);
  }

  // ---------------------------------------------------------------------------
  // The manager object
  // ---------------------------------------------------------------------------

  class ShortcutManager {
    var eventHandler: Option<nat>
    var currentShortcut: Shortcut
    var installed: map<nat, Shortcut>
    var nextHandle: nat

    function Snapshot(): Manager
      reads this
    {
      Manager(eventHandler, currentShortcut, installed, nextHandle)
    }

    constructor ()
      ensures Snapshot() == Initial
    {
      eventHandler := None;
      currentShortcut := Default;
      installed := map[];
      nextHandle := 0;
    }

    /** `registerGlobalShortcut(_:)`. */
    method RegisterGlobalShortcut(s: Shortcut)
      modifies this
      ensures Snapshot() == RegisterStep(old(Snapshot()), s)
    {
      if eventHandler.Some? {
        installed := installed - {eventHandler.value};
      }
      eventHandler := Some(nextHandle);
      installed := installed[nextHandle := s];
      nextHandle := nextHandle + 1;
    }

    /** `setup()`. */
    method Setup()
      modifies this
      ensures Snapshot() == Apply(old(Snapshot()), ShortcutOp.Setup)
    {
      RegisterGlobalShortcut(currentShortcut);
    }

    /** `teardown()`. */
    method Teardown()
      modifies this
      ensures Snapshot() == TeardownStep(old(Snapshot()))
    {
      if eventHandler.Some? {
        installed := installed - {eventHandler.value};
        eventHandler := None;
      }
    }

    /** `setCustomShortcut(_:)`. */
    method SetCustomShortcut(s: Shortcut)
      modifies this
      ensures Snapshot() == SetCustomStep(old(Snapshot()), s)
    {
      currentShortcut := s;
      RegisterGlobalShortcut(s);
    }

    /**
     * A key-down event reaches the installed monitors; a match runs
     * `handleShortcutTriggered()`, which toggles the panel.
     */
    method OnKeyDown(keyCode: nat, flags: Flags, vm: Panel.NotchViewModel)
      requires Inv(Snapshot()) && vm.Valid()
      modifies vm, vm.bus
      ensures vm.Valid()
      ensures Fires(Snapshot(), keyCode, flags) ==>
                vm.Snapshot() == Panel.Step(old(vm.Snapshot()), Panel.Op.ToggleExpand).0
                && vm.bus.log == old(vm.bus.log) + Panel.Step(old(vm.Snapshot()), Panel.Op.ToggleExpand).1
      ensures !Fires(Snapshot(), keyCode, flags) ==> vm.Snapshot() == old(vm.Snapshot()) && vm.bus.log == old(vm.bus.log)
      ensures vm.notchGeometry == old(vm.notchGeometry) && vm.isHUDVisible == old(vm.isHUDVisible)
    {
      FiresIffCurrent(Snapshot(), keyCode, flags);
      if eventHandler.Some? && Matches(currentShortcut, keyCode, flags) {
        vm.ToggleExpand();
      }
    }
  }
}
