/**
 * Keyboard shortcuts of the context menu (src/lib/ctxmenu/shortcuts.ts):
 * reading a written shortcut such as "Ctrl+Shift+K", deciding whether a key
 * event triggers a shortcut, and writing a shortcut out for display.
 */
module Shortcuts {
  import opened Wrappers
  import opened Text

  /** `CtxShortcut`: a key and four optional modifier flags. */
  datatype Shortcut = Shortcut(
    key: string,
    ctrlKey: Option<bool>,
    shiftKey: Option<bool>,
    altKey: Option<bool>,
    metaKey: Option<bool>)

  /** `string | CtxShortcut`: a shortcut as written, or as an object. */
  datatype ShortcutArg = Written(text: string) | Keys(shortcut: Shortcut)

  /** The fields of a `KeyboardEvent` a shortcut is compared with. */
  datatype KeyEvent = KeyEvent(key: string, code: string, ctrlKey: bool, shiftKey: bool, altKey: bool, metaKey: bool)

  /** A flag that is present and true (`flag || false`). */
  predicate Set(flag: Option<bool>) {
    flag == Some(true)
  }

  /** `modifiers.some((m) => m.toLowerCase() === name)`. */
  predicate HasModifier(modifiers: seq<string>, name: string) {
    exists i :: 0 <= i < |modifiers| && Lower(modifiers[i]) == name
  }

  /**
   * `parseShortcut(shortcut)`. An object is returned as it is. A written
   * shortcut is cut at every "+": the last segment is the key, and the
   * earlier ones, compared without regard to case, set the modifiers, "meta"
   * and "cmd" both standing for the meta key.
   */
  function ParseShortcut(arg: ShortcutArg): (r: Shortcut)
    ensures arg.Keys? ==> r == arg.shortcut
    ensures arg.Written? ==>
      (&& '+' !in r.key
       && |r.key| <= |arg.text| && arg.text[|arg.text| - |r.key|..] == r.key
       && (|r.key| < |arg.text| ==> arg.text[|arg.text| - |r.key| - 1] == '+')
       && r.ctrlKey.Some? && r.shiftKey.Some? && r.altKey.Some? && r.metaKey.Some?)
  {
    match arg
    case Keys(shortcut) => shortcut
    case Written(text) =>
      var parts := Split(text, '+');
      var modifiers := parts[..|parts| - 1];
      KeyIsLastSegment(text);
      Shortcut(parts[|parts| - 1],
               Some(HasModifier(modifiers, "ctrl")),
               Some(HasModifier(modifiers, "shift")),
               Some(HasModifier(modifiers, "alt")),
               Some(HasModifier(modifiers, "meta") || HasModifier(modifiers, "cmd")))
  }

  /** A list of two or more parts joins as the join of all but the last, the separator, and the last. */
  lemma {:induction false} JoinLast(parts: seq<string>, sep: string)
    requires |parts| >= 2
    ensures Join(parts, sep) == Join(parts[..|parts| - 1], sep) + sep + parts[|parts| - 1]
  {
    if |parts| > 2 {
      JoinLast(parts[1..], sep);
      assert parts[1..][..|parts| - 2] == parts[..|parts| - 1][1..];
    }
  }

  /**
   * The last segment of a split is what follows the last separator: the
   * text ends with it, and the text before it is the other segments joined.
   */
  lemma KeyIsLastSegment(text: string)
    ensures var parts := Split(text, '+');
      var key := parts[|parts| - 1];
      && |key| <= |text| && text[|text| - |key|..] == key
      && (|parts| == 1 ==> key == text)
      && (|parts| > 1 ==> text == Join(parts[..|parts| - 1], "+") + "+" + key)
  {
    var parts := Split(text, '+');
    JoinSplit(text, '+');
    if |parts| > 1 {
      JoinLast(parts, "+");
    }
  }

  /** The key comparison of `matchesShortcut`: by key or code, ignoring case, plus the "Space" and "Del" aliases. */
  predicate KeyMatches(e: KeyEvent, key: string) {
    || Lower(e.key) == Lower(key)
    || Lower(e.code) == Lower(key)
    || (key == "Space" && e.key == " ")
    || (key == "Del" && e.key == "Delete")
  }

  /** `matchesShortcut(e, shortcut)`: the key matches and every modifier flag is exactly as pressed. */
  predicate MatchesShortcut(e: KeyEvent, arg: ShortcutArg) {
    var p := ParseShortcut(arg);
    && KeyMatches(e, p.key)
    && e.ctrlKey == Set(p.ctrlKey)
    && e.shiftKey == Set(p.shiftKey)
    && e.altKey == Set(p.altKey)
    && e.metaKey == Set(p.metaKey)
  }

  /**
   * Modifiers must match exactly: an event that matches stops matching when
   * any one more modifier is pressed or released.
   */
  lemma MatchesExactModifiers(e: KeyEvent, arg: ShortcutArg)
    requires MatchesShortcut(e, arg)
    ensures !MatchesShortcut(e.(ctrlKey := !e.ctrlKey), arg)
    ensures !MatchesShortcut(e.(shiftKey := !e.shiftKey), arg)
    ensures !MatchesShortcut(e.(altKey := !e.altKey), arg)
    ensures !MatchesShortcut(e.(metaKey := !e.metaKey), arg)
  {
  }

  /** "Space" is triggered by the space bar and "Del" by the Delete key, whatever the code. */
  lemma AliasesMatch(code: string, ctrl: bool, shift: bool, alt: bool, meta: bool)
    ensures var mods := Shortcut("", Some(ctrl), Some(shift), Some(alt), Some(meta));
      && MatchesShortcut(KeyEvent(" ", code, ctrl, shift, alt, meta), Keys(mods.(key := "Space")))
      && MatchesShortcut(KeyEvent("Delete", code, ctrl, shift, alt, meta), Keys(mods.(key := "Del")))
  {
  }

  /** The modifier words `formatShortcut` writes, in the order Ctrl, Alt, Shift, Cmd. */
  function ModifierNames(s: Shortcut): (names: seq<string>)
    ensures |names| <= 4
  {
    (if Set(s.ctrlKey) then ["Ctrl"] else [])
    + (if Set(s.altKey) then ["Alt"] else [])
    + (if Set(s.shiftKey) then ["Shift"] else [])
    + (if Set(s.metaKey) then ["Cmd"] else [])
  }

  /** How `formatShortcut` shows a key. */
  function DisplayKey(key: string): (r: string)
    ensures '+' in r ==> '+' in key
  {
    if key == " " then "Space"
    else if key == "Delete" then "Del"
    else if key == "ArrowUp" then "↑"
    else if key == "ArrowDown" then "↓"
    else if key == "ArrowLeft" then "←"
    else if key == "ArrowRight" then "→"
    else if |key| == 1 then [UpperChar(key[0])]
    else key
  }

  /** The text `formatShortcut` returns. */
  function Formatted(arg: ShortcutArg): string {
    match arg
    case Written(text) => text
    case Keys(s) => Join(ModifierNames(s) + [DisplayKey(s.key)], "+")
  }

  /**
   * `formatShortcut(shortcut)`: a written shortcut is returned as it is;
   * otherwise the set modifiers are pushed in the order Ctrl, Alt, Shift,
   * Cmd, then the display form of the key, and the parts are joined by "+".
   */
  method FormatShortcut(arg: ShortcutArg) returns (r: string)
    ensures r == Formatted(arg)
  {
    if arg.Written? {
      return arg.text;
    }
    var s := arg.shortcut;
    var parts: seq<string> := [];
    if Set(s.ctrlKey) {
      parts := parts + ["Ctrl"];
    }
    if Set(s.altKey) {
      parts := parts + ["Alt"];
    }
    if Set(s.shiftKey) {
      parts := parts + ["Shift"];
    }
    if Set(s.metaKey) {
      parts := parts + ["Cmd"];
    }
    assert parts == ModifierNames(s);
    var key := s.key;
    if key == " " {
      key := "Space";
    } else if key == "Delete" {
      key := "Del";
    } else if key == "ArrowUp" {
      key := "↑";
    } else if key == "ArrowDown" {
      key := "↓";
    } else if key == "ArrowLeft" {
      key := "←";
    } else if key == "ArrowRight" {
      key := "→";
    } else if |key| == 1 {
      key := [UpperChar(key[0])];
    }
    assert key == DisplayKey(s.key);
    parts := parts + [key];
    r := Join(parts, "+");
  }

  lemma ModifierWordsLower()
    ensures Lower("Ctrl") == "ctrl" && Lower("Alt") == "alt" && Lower("Shift") == "shift" && Lower("Cmd") == "cmd"
  {
    assert Lower("Ctrl") == ['c', 't', 'r', 'l'];
    assert Lower("Alt") == ['a', 'l', 't'];
    assert Lower("Shift") == ['s', 'h', 'i', 'f', 't'];
    assert Lower("Cmd") == ['c', 'm', 'd'];
  }

  lemma HasModifierAppend(a: seq<string>, b: seq<string>, name: string)
    ensures HasModifier(a + b, name) <==> HasModifier(a, name) || HasModifier(b, name)
  {
    if HasModifier(a, name) {
      var i :| 0 <= i < |a| && Lower(a[i]) == name;
      assert (a + b)[i] == a[i];
    }
    if HasModifier(a + b, name) {
      var i :| 0 <= i < |a + b| && Lower((a + b)[i]) == name;
      if i >= |a| {
        assert b[i - |a|] == (a + b)[i];
      }
    }
    if HasModifier(b, name) {
      var i :| 0 <= i < |b| && Lower(b[i]) == name;
      assert (a + b)[|a| + i] == b[i];
    }
  }

  lemma HasModifierOne(word: string, name: string)
    ensures HasModifier([word], name) <==> Lower(word) == name
  {
    if Lower(word) == name {
      assert Lower([word][0]) == name;
    }
  }

  /** Reading the modifier words back gives the flags they were written from. */
  lemma ModifierNamesRead(s: Shortcut)
    ensures HasModifier(ModifierNames(s), "ctrl") == Set(s.ctrlKey)
    ensures HasModifier(ModifierNames(s), "shift") == Set(s.shiftKey)
    ensures HasModifier(ModifierNames(s), "alt") == Set(s.altKey)
    ensures (HasModifier(ModifierNames(s), "meta") || HasModifier(ModifierNames(s), "cmd")) == Set(s.metaKey)
  {
    var c: seq<string> := if Set(s.ctrlKey) then ["Ctrl"] else [];
    var a: seq<string> := if Set(s.altKey) then ["Alt"] else [];
    var sh: seq<string> := if Set(s.shiftKey) then ["Shift"] else [];
    var m: seq<string> := if Set(s.metaKey) then ["Cmd"] else [];
    ModifierWordsLower();
    forall name | name in {"ctrl", "shift", "alt", "meta", "cmd"}
      ensures HasModifier(ModifierNames(s), name) <==>
        (name == "ctrl" && Set(s.ctrlKey)) || (name == "alt" && Set(s.altKey))
        || (name == "shift" && Set(s.shiftKey)) || (name == "cmd" && Set(s.metaKey))
    {
      HasModifierAppend(c + a + sh, m, name);
      HasModifierAppend(c + a, sh, name);
      HasModifierAppend(c, a, name);
      HasModifierOne("Ctrl", name);
      HasModifierOne("Alt", name);
      HasModifierOne("Shift", name);
      HasModifierOne("Cmd", name);
    }
  }

  /**
   * Writing a shortcut out and reading it back keeps its four modifier
   * flags and yields the display form of its key, provided the key has no
   * "+" in it.
   */
  lemma FormatThenParse(s: Shortcut)
    requires '+' !in s.key
    ensures var p := ParseShortcut(Written(Formatted(Keys(s))));
      && p.key == DisplayKey(s.key)
      && p.ctrlKey == Some(Set(s.ctrlKey))
      && p.shiftKey == Some(Set(s.shiftKey))
      && p.altKey == Some(Set(s.altKey))
      && p.metaKey == Some(Set(s.metaKey))
  {
    var parts := ModifierNames(s) + [DisplayKey(s.key)];
    forall k | 0 <= k < |parts|
      ensures '+' !in parts[k]
    {
    }
    var text := Formatted(Keys(s));
    assert text == Join(parts, "+");
    SplitJoin(parts, '+');
    assert Split(text, '+') == parts;
    assert parts[..|parts| - 1] == ModifierNames(s);
    assert parts[|parts| - 1] == DisplayKey(s.key);
    ModifierNamesRead(s);
  }

  /**
   * A key that is itself "+" (the shift table's `equal`) is written
   * "Shift++", which reads back as an empty key: the round trip above needs
   * its "+"-free premise.
   */
  lemma PlusKeyDoesNotRoundTrip()
    ensures Formatted(Keys(Shortcut("+", None, Some(true), None, None))) == "Shift++"
    ensures ParseShortcut(Written("Shift++")).key == ""
  {
    var parts := ["Shift", "+"];
    assert ModifierNames(Shortcut("+", None, Some(true), None, None)) == ["Shift"];
    assert Join(["Shift", "+"], "+") == "Shift" + "+" + "+";
    assert "Shift++" == ['S', 'h', 'i', 'f', 't'] + ['+'] + ['+'];
    SplitAppend("Shift", "+", '+');
    SplitAppend("", "", '+');
    assert "+" == "" + ['+'] + "";
  }
}
