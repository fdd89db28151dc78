/**
  Settings: the application's user settings object, here with the fields the
  colour presets read and write and the hotkey fields behind
  `GetHotkeyDisplayString`, which names the modifiers in the fixed order Ctrl,
  Shift, Alt, Win, then the key, joined with "+".
*/
module AppSettings {

  /** WPF's `Key`: the keys with a display name of their own, and every other key by its enum name. */
  datatype Key =
    | Space | Enter | Tab | Escape | Back | Delete | Insert | Home | End
    | PageUp | PageDown | Up | Down | Left | Right
    | Named(name: string)

  /** WPF's `ModifierKeys` flags. */
  type ModifierKeys = bv4

  const Alt: ModifierKeys := 1
  const Control: ModifierKeys := 2
  const Shift: ModifierKeys := 4
  const Windows: ModifierKeys := 8

  /** The twelve colour settings, as ARGB hex strings. */
  datatype Palette = Palette(
    searchBoxBorder: string, searchBoxText: string, searchBoxBackground: string,
    resultsBoxBorder: string, resultsBoxText: string, resultsBoxBackground: string,
    windowBorder: string, windowBackground: string, highlight: string,
    notificationBackground: string, notificationBorder: string, notificationText: string)

  /** The colours a new Settings or a new ColorPreset starts with. */
  const DefaultPalette := Palette(
    "#FFFFFFFF", "#FFF8F8F2", "#FF57584F",
    "#FF49483E", "#FFF8F8F2", "#FF35362F",
    "#FF49483E", "#FF272822", "#FFA6E22E",
    "#FF57584F", "#FF49483E", "#FFF8F8F2")

  /** The settings that are not colours. */
  datatype Preferences = Preferences(
    decimalPlaces: int, hotkeyKey: Key, hotkeyModifiers: ModifierKeys,
    autoHideOnFocusLoss: bool, showCopyConfirmation: bool, windowScale: real)

  // ---------------------------------------------------------------------------
  // The hotkey display string.

  /** The four modifiers, each with its flag and its name, in display order. */
  datatype Modifier = Ctrl | ShiftKey | AltKey | Win

  function Flag(x: Modifier): ModifierKeys {
    match x
    case Ctrl => Control
    case ShiftKey => Shift
    case AltKey => Alt
    case Win => Windows
  }

  function Label(x: Modifier): string {
    match x
    case Ctrl => "Ctrl"
    case ShiftKey => "Shift"
    case AltKey => "Alt"
    case Win => "Win"
  }

  /** Position in the display order Ctrl, Shift, Alt, Win. */
  function Position(x: Modifier): nat {
    match x
    case Ctrl => 0
    case ShiftKey => 1
    case AltKey => 2
    case Win => 3
  }

  /**
    The modifiers whose flag is set: each modifier is present exactly when its
    flag is set, and they appear in display order.
  */
  function SetModifiers(m: ModifierKeys): (r: seq<Modifier>)
    ensures |r| <= 4
    ensures forall x: Modifier :: x in r <==> m & Flag(x) != 0
    ensures forall i, k | 0 <= i < k < |r| :: Position(r[i]) < Position(r[k])
  {
    (if m & Control != 0 then [Ctrl] else []) +
    (if m & Shift != 0 then [ShiftKey] else []) +
    (if m & Alt != 0 then [AltKey] else []) +
    (if m & Windows != 0 then [Win] else [])
  }

  /** Different modifiers have different names. */
  lemma LabelInjective(x: Modifier, y: Modifier)
    ensures Label(x) == Label(y) ==> x == y
  {
    if Label(x) == Label(y) {
      assert |Label(x)| == |Label(y)| && Label(x)[0] == Label(y)[0];
    }
  }

  /** The names of the set modifiers, in display order. */
  function ModifierNames(m: ModifierKeys): (r: seq<string>)
    ensures |r| == |SetModifiers(m)|
    ensures forall k | 0 <= k < |r| :: r[k] == Label(SetModifiers(m)[k])
  {
    var mods := SetModifiers(m);
    seq(|mods|, k requires 0 <= k < |mods| => Label(mods[k]))
  }

  /**
    The display property of the names: a modifier's name is listed exactly
    when its flag is set, and a name listed before another belongs to a
    modifier earlier in the order Ctrl, Shift, Alt, Win.
  */
  lemma ModifierNamesInOrder(m: ModifierKeys)
    ensures forall x: Modifier :: Label(x) in ModifierNames(m) <==> m & Flag(x) != 0
    ensures forall i, k, x: Modifier, y: Modifier |
              0 <= i < k < |ModifierNames(m)| && ModifierNames(m)[i] == Label(x) && ModifierNames(m)[k] == Label(y) ::
              Position(x) < Position(y)
  {
    var mods, r := SetModifiers(m), ModifierNames(m);
    forall x: Modifier ensures Label(x) in r <==> x in mods {
      if Label(x) in r {
        var k :| 0 <= k < |r| && r[k] == Label(x);
        LabelInjective(x, mods[k]);
      }
      if x in mods {
        var k :| 0 <= k < |mods| && mods[k] == x;
        assert r[k] == Label(x);
      }
    }
    forall i, k, x: Modifier, y: Modifier | 0 <= i < k < |r| && r[i] == Label(x) && r[k] == Label(y)
      ensures Position(x) < Position(y)
    {
      LabelInjective(x, mods[i]);
      LabelInjective(y, mods[k]);
    }
  }

  /**
    The `switch` on the key: fixed names for special keys, the enum name
    otherwise. A fixed name is never empty and never holds "+", so it cannot
    be mistaken for two components of the display.
  */
  function KeyName(k: Key): (r: string)
    ensures k.Named? ==> r == k.name
    ensures !k.Named? ==> r != [] && '+' !in r
  {
    match k
    case Space => "Space"
    case Enter => "Enter"
    case Tab => "Tab"
    case Escape => "Escape"
    case Back => "Backspace"
    case Delete => "Delete"
    case Insert => "Insert"
    case Home => "Home"
    case End => "End"
    case PageUp => "Page Up"
    case PageDown => "Page Down"
    case Up => "↑"
    case Down => "↓"
    case Left => "←"
    case Right => "→"
    case Named(name) => name
  }

  /** `string.Join("+", parts)`. */
  function Join(parts: seq<string>): string
    decreases |parts|
  {
    if parts == [] then ""
    else if |parts| == 1 then parts[0]
    else parts[0] + "+" + Join(parts[1..])
  }

  /** Position of the first '+' in `s`, or |s|. */
  function PlusIndex(s: string): (r: nat)
    ensures r <= |s|
    ensures forall k | 0 <= k < r :: s[k] != '+'
    ensures r < |s| ==> s[r] == '+'
    decreases |s|
  {
    if s == [] then 0 else if s[0] == '+' then 0 else 1 + PlusIndex(s[1..])
  }

  /** The components of a string separated by '+', the inverse of Join. */
  function Split(s: string): (r: seq<string>)
    ensures r != []
    decreases |s|
  {
    var i := PlusIndex(s);
    if i == |s| then [s] else [s[..i]] + Split(s[i + 1..])
  }

  /** The display string: the modifier names followed by the key name, joined with "+". */
  function HotkeyDisplay(key: Key, modifiers: ModifierKeys): string {
    Join(ModifierNames(modifiers) + [KeyName(key)])
  }

  lemma SplitAfter(a: string, b: string)
    requires '+' !in a
    ensures Split(a + "+" + b) == [a] + Split(b)
  {
    var s := a + "+" + b;
    assert s[|a|] == '+';
    assert forall k | 0 <= k < |a| :: s[k] == a[k];
    assert PlusIndex(s) == |a|;
    assert s[..|a|] == a && s[|a| + 1..] == b;
  }

  /** Join has an inverse when no component contains the separator. */
  lemma {:induction false} SplitJoin(parts: seq<string>)
    requires parts != []
    requires forall k | 0 <= k < |parts| :: '+' !in parts[k]
    ensures Split(Join(parts)) == parts
    decreases |parts|
  {
    if |parts| == 1 {
      assert PlusIndex(parts[0]) == |parts[0]|;
    } else {
      SplitJoin(parts[1..]);
      SplitAfter(parts[0], Join(parts[1..]));
    }
  }

  /**
    The display string splits back into its components: the set modifiers in
    the order Ctrl, Shift, Alt, Win, then the key name as the last component.
  */
  lemma DisplayComponents(key: Key, modifiers: ModifierKeys)
    requires '+' !in KeyName(key)
    ensures Split(HotkeyDisplay(key, modifiers)) == ModifierNames(modifiers) + [KeyName(key)]
    ensures Split(HotkeyDisplay(key, modifiers))[|ModifierNames(modifiers)|] == KeyName(key)
  {
    var parts := ModifierNames(modifiers) + [KeyName(key)];
    forall k | 0 <= k < |parts| ensures '+' !in parts[k] {
      if k < |parts| - 1 {
        assert parts[k] == Label(SetModifiers(modifiers)[k]);
      }
    }
    SplitJoin(parts);
  }

  // ---------------------------------------------------------------------------
  // The settings object.

  class Settings {
    var decimalPlaces: int
    var hotkeyKey: Key
    var hotkeyModifiers: ModifierKeys
    var autoHideOnFocusLoss: bool
    var showCopyConfirmation: bool
    var windowScale: real

    var searchBoxBorderColor: string
    var searchBoxTextColor: string
    var searchBoxBackgroundColor: string
    var resultsBoxBorderColor: string
    var resultsBoxTextColor: string
    var resultsBoxBackgroundColor: string
    var windowBorderColor: string
    var windowBackgroundColor: string
    var highlightColor: string
    var notificationBackgroundColor: string
    var notificationBorderColor: string
    var notificationTextColor: string

    /** The twelve colour fields. */
    function Colors(): Palette
      reads this
    {
      Palette(searchBoxBorderColor, searchBoxTextColor, searchBoxBackgroundColor,
              resultsBoxBorderColor, resultsBoxTextColor, resultsBoxBackgroundColor,
              windowBorderColor, windowBackgroundColor, highlightColor,
              notificationBackgroundColor, notificationBorderColor, notificationTextColor)
    }

    /** Every field that is not a colour. */
    function Others(): Preferences
      reads this
    {
      Preferences(decimalPlaces, hotkeyKey, hotkeyModifiers, autoHideOnFocusLoss, showCopyConfirmation, windowScale)
    }

    /** The defaults of a new Settings: three decimals, Ctrl+Shift+Z, and the default palette. */
    constructor ()
      ensures Others() == Preferences(3, Named("Z"), Control | Shift, true, true, 1.0)
      ensures Colors() == DefaultPalette
    {
      decimalPlaces := 3;
      hotkeyKey := Named("Z");
      hotkeyModifiers := Control | Shift;
      autoHideOnFocusLoss := true;
      showCopyConfirmation := true;
      windowScale := 1.0;
      searchBoxBorderColor := "#FFFFFFFF";
      searchBoxTextColor := "#FFF8F8F2";
      searchBoxBackgroundColor := "#FF57584F";
      resultsBoxBorderColor := "#FF49483E";
      resultsBoxTextColor := "#FFF8F8F2";
      resultsBoxBackgroundColor := "#FF35362F";
      windowBorderColor := "#FF49483E";
      windowBackgroundColor := "#FF272822";
      highlightColor := "#FFA6E22E";
      notificationBackgroundColor := "#FF57584F";
      notificationBorderColor := "#FF49483E";
      notificationTextColor := "#FFF8F8F2";
    }

    /** Settings.GetHotkeyDisplayString. */
    method GetHotkeyDisplayString() returns (display: string)
      ensures display == HotkeyDisplay(hotkeyKey, hotkeyModifiers)
    {
      var modifiers: seq<string> := [];
      if hotkeyModifiers & Control != 0 {
        modifiers := modifiers + ["Ctrl"];
      }
      if hotkeyModifiers & Shift != 0 {
        modifiers := modifiers + ["Shift"];
      }
      if hotkeyModifiers & Alt != 0 {
        modifiers := modifiers + ["Alt"];
      }
      if hotkeyModifiers & Windows != 0 {
        modifiers := modifiers + ["Win"];
      }
      assert modifiers == ModifierNames(hotkeyModifiers);
      var keyName := KeyName(hotkeyKey);
      modifiers := modifiers + [keyName];
      display := Join(modifiers);
    }
  }

  /** The default hotkey reads "Ctrl+Shift+Z", and the default precision is three decimals. */
  method DefaultHotkeyDisplay() returns (display: string, decimals: int)
    ensures display == "Ctrl+Shift+Z"
    ensures decimals == 3
  {
    var settings := new Settings();
    display := settings.GetHotkeyDisplayString();
    decimals := settings.decimalPlaces;
    var m: ModifierKeys := Control | Shift;
    assert m & Control != 0 && m & Shift != 0 && m & Alt == 0 && m & Windows == 0;
    assert SetModifiers(m) == [Ctrl, ShiftKey];
    assert ModifierNames(m) + [KeyName(Named("Z"))] == ["Ctrl", "Shift", "Z"];
    assert Join(["Z"]) == "Z";
    assert Join(["Shift", "Z"]) == "Shift+Z";
    assert Join(["Ctrl", "Shift", "Z"]) == "Ctrl+Shift+Z";
  }
}
