/**
 * The `shortcuts` table of src/lib/ctxmenu/shortcuts.ts as data. The table
 * has ungrouped keys and seven groups named after modifier combinations;
 * every entry of a group holds exactly that group's modifiers (set to true,
 * the others absent), so a group is stored as its modifiers and its
 * (name, key) entries, and each entry's shortcut is built from both.
 */
module ShortcutTable {
  import opened Wrappers
  import opened Shortcuts

  /** A group of the table: its name, its modifiers, and its entries as (name, key) pairs. */
  datatype Group = Group(name: string, ctrl: bool, shift: bool, alt: bool, meta: bool, entries: seq<(string, string)>)

  /** A modifier a table entry either sets to true or leaves out. */
  function Flag(on: bool): (f: Option<bool>)
    ensures Set(f) == on
  {
    if on then Some(true) else None
  }

  /** The shortcut object of an entry with key `key` in group `g`. */
  function EntryShortcut(g: Group, key: string): (s: Shortcut)
    ensures s.key == key
    ensures Set(s.ctrlKey) == g.ctrl && Set(s.shiftKey) == g.shift
    ensures Set(s.altKey) == g.alt && Set(s.metaKey) == g.meta
  {
    Shortcut(key, Flag(g.ctrl), Flag(g.shift), Flag(g.alt), Flag(g.meta))
  }

  /** The ungrouped keys. */
  function Plain(): Group {
    Group("", false, false, false, false, [
      ("space", " "), ("enter", "Enter"), ("escape", "Escape"), ("backspace", "Backspace"),
      ("delete", "Delete"), ("tab", "Tab"), ("capsLock", "CapsLock"), ("home", "Home"), ("end", "End"),
      ("pageUp", "PageUp"), ("pageDown", "PageDown"), ("insert", "Insert"), ("pause", "Pause"),
      ("printScreen", "PrintScreen"), ("scrollLock", "ScrollLock"), ("numLock", "NumLock"),
      ("contextMenu", "ContextMenu"), ("f1", "F1"), ("f2", "F2"), ("f3", "F3"), ("f4", "F4"), ("f5", "F5"),
      ("f6", "F6"), ("f7", "F7"), ("f8", "F8"), ("f9", "F9"), ("f10", "F10"), ("f11", "F11"), ("f12", "F12"),
      ("arrowUp", "ArrowUp"), ("arrowDown", "ArrowDown"), ("arrowLeft", "ArrowLeft"),
      ("arrowRight", "ArrowRight"), ("0", "0"), ("1", "1"), ("2", "2"), ("3", "3"), ("4", "4"), ("5", "5"),
      ("6", "6"), ("7", "7"), ("8", "8"), ("9", "9"), ("a", "a"), ("b", "b"), ("c", "c"), ("d", "d"),
      ("e", "e"), ("f", "f"), ("g", "g"), ("h", "h"), ("i", "i"), ("j", "j"), ("k", "k"), ("l", "l"),
      ("m", "m"), ("n", "n"), ("o", "o"), ("p", "p"), ("q", "q"), ("r", "r"), ("s", "s"), ("t", "t"),
      ("u", "u"), ("v", "v"), ("w", "w"), ("x", "x"), ("y", "y"), ("z", "z"), ("minus", "-"), ("equal", "="),
      ("bracketLeft", "["), ("bracketRight", "]"), ("backslash", "\\"), ("semicolon", ";"), ("quote", "'"),
      ("comma", ","), ("period", "."), ("slash", "/"), ("backtick", "`"), ("numpad0", "Numpad0"),
      ("numpad1", "Numpad1"), ("numpad2", "Numpad2"), ("numpad3", "Numpad3"), ("numpad4", "Numpad4"),
      ("numpad5", "Numpad5"), ("numpad6", "Numpad6"), ("numpad7", "Numpad7"), ("numpad8", "Numpad8"),
      ("numpad9", "Numpad9"), ("numpadAdd", "NumpadAdd"), ("numpadSubtract", "NumpadSubtract"),
      ("numpadMultiply", "NumpadMultiply"), ("numpadDivide", "NumpadDivide"),
      ("numpadDecimal", "NumpadDecimal"), ("numpadEnter", "NumpadEnter")
    ])
  }

  /** `shortcuts.ctrl`. */
  function CtrlGroup(): Group {
    Group("ctrl", true, false, false, false, [
      ("a", "a"), ("b", "b"), ("c", "c"), ("d", "d"), ("e", "e"), ("f", "f"), ("g", "g"), ("h", "h"),
      ("i", "i"), ("j", "j"), ("k", "k"), ("l", "l"), ("m", "m"), ("n", "n"), ("o", "o"), ("p", "p"),
      ("q", "q"), ("r", "r"), ("s", "s"), ("t", "t"), ("u", "u"), ("v", "v"), ("w", "w"), ("x", "x"),
      ("y", "y"), ("z", "z"), ("0", "0"), ("1", "1"), ("2", "2"), ("3", "3"), ("4", "4"), ("5", "5"),
      ("6", "6"), ("7", "7"), ("8", "8"), ("9", "9"), ("enter", "Enter"), ("space", " "), ("tab", "Tab"),
      ("backspace", "Backspace"), ("delete", "Delete"), ("home", "Home"), ("end", "End"),
      ("pageUp", "PageUp"), ("pageDown", "PageDown"), ("arrowUp", "ArrowUp"), ("arrowDown", "ArrowDown"),
      ("arrowLeft", "ArrowLeft"), ("arrowRight", "ArrowRight"), ("f1", "F1"), ("f2", "F2"), ("f3", "F3"),
      ("f4", "F4"), ("f5", "F5"), ("f6", "F6"), ("f7", "F7"), ("f8", "F8"), ("f9", "F9"), ("f10", "F10"),
      ("f11", "F11"), ("f12", "F12"), ("minus", "-"), ("equal", "="), ("bracketLeft", "["),
      ("bracketRight", "]"), ("backslash", "\\"), ("semicolon", ";"), ("quote", "'"), ("comma", ","),
      ("period", "."), ("slash", "/"), ("backtick", "`")
    ])
  }

  /** `shortcuts.shift`: the key is the shifted character. */
  function ShiftGroup(): Group {
    Group("shift", false, true, false, false, [
      ("a", "A"), ("b", "B"), ("c", "C"), ("d", "D"), ("e", "E"), ("f", "F"), ("g", "G"), ("h", "H"),
      ("i", "I"), ("j", "J"), ("k", "K"), ("l", "L"), ("m", "M"), ("n", "N"), ("o", "O"), ("p", "P"),
      ("q", "Q"), ("r", "R"), ("s", "S"), ("t", "T"), ("u", "U"), ("v", "V"), ("w", "W"), ("x", "X"),
      ("y", "Y"), ("z", "Z"), ("1", "!"), ("2", "@"), ("3", "#"), ("4", "$"), ("5", "%"), ("6", "^"),
      ("7", "&"), ("8", "*"), ("9", "("), ("0", ")"), ("enter", "Enter"), ("space", " "), ("tab", "Tab"),
      ("backspace", "Backspace"), ("delete", "Delete"), ("home", "Home"), ("end", "End"),
      ("pageUp", "PageUp"), ("pageDown", "PageDown"), ("insert", "Insert"), ("arrowUp", "ArrowUp"),
      ("arrowDown", "ArrowDown"), ("arrowLeft", "ArrowLeft"), ("arrowRight", "ArrowRight"), ("f1", "F1"),
      ("f2", "F2"), ("f3", "F3"), ("f4", "F4"), ("f5", "F5"), ("f6", "F6"), ("f7", "F7"), ("f8", "F8"),
      ("f9", "F9"), ("f10", "F10"), ("f11", "F11"), ("f12", "F12"), ("minus", "_"), ("equal", "+"),
      ("bracketLeft", "{"), ("bracketRight", "}"), ("backslash", "|"), ("semicolon", ":"), ("quote", "\""),
      ("comma", "<"), ("period", ">"), ("slash", "?"), ("backtick", "~")
    ])
  }

  /** `shortcuts.alt`. */
  function AltGroup(): Group {
    Group("alt", false, false, true, false, [
      ("a", "a"), ("b", "b"), ("c", "c"), ("d", "d"), ("e", "e"), ("f", "f"), ("g", "g"), ("h", "h"),
      ("i", "i"), ("j", "j"), ("k", "k"), ("l", "l"), ("m", "m"), ("n", "n"), ("o", "o"), ("p", "p"),
      ("q", "q"), ("r", "r"), ("s", "s"), ("t", "t"), ("u", "u"), ("v", "v"), ("w", "w"), ("x", "x"),
      ("y", "y"), ("z", "z"), ("0", "0"), ("1", "1"), ("2", "2"), ("3", "3"), ("4", "4"), ("5", "5"),
      ("6", "6"), ("7", "7"), ("8", "8"), ("9", "9"), ("enter", "Enter"), ("space", " "), ("tab", "Tab"),
      ("backspace", "Backspace"), ("delete", "Delete"), ("arrowUp", "ArrowUp"), ("arrowDown", "ArrowDown"),
      ("arrowLeft", "ArrowLeft"), ("arrowRight", "ArrowRight"), ("f1", "F1"), ("f2", "F2"), ("f3", "F3"),
      ("f4", "F4"), ("f5", "F5"), ("f6", "F6"), ("f7", "F7"), ("f8", "F8"), ("f9", "F9"), ("f10", "F10"),
      ("f11", "F11"), ("f12", "F12")
    ])
  }

  /** `shortcuts.meta`. */
  function MetaGroup(): Group {
    Group("meta", false, false, false, true, [
      ("a", "a"), ("b", "b"), ("c", "c"), ("d", "d"), ("e", "e"), ("f", "f"), ("g", "g"), ("h", "h"),
      ("i", "i"), ("j", "j"), ("k", "k"), ("l", "l"), ("m", "m"), ("n", "n"), ("o", "o"), ("p", "p"),
      ("q", "q"), ("r", "r"), ("s", "s"), ("t", "t"), ("u", "u"), ("v", "v"), ("w", "w"), ("x", "x"),
      ("y", "y"), ("z", "z"), ("0", "0"), ("1", "1"), ("2", "2"), ("3", "3"), ("4", "4"), ("5", "5"),
      ("6", "6"), ("7", "7"), ("8", "8"), ("9", "9"), ("arrowUp", "ArrowUp"), ("arrowDown", "ArrowDown"),
      ("arrowLeft", "ArrowLeft"), ("arrowRight", "ArrowRight")
    ])
  }

  /** `shortcuts.ctrlShift`. */
  function CtrlShiftGroup(): Group {
    Group("ctrlShift", true, true, false, false, [
      ("a", "a"), ("b", "b"), ("c", "c"), ("d", "d"), ("e", "e"), ("f", "f"), ("g", "g"), ("h", "h"),
      ("i", "i"), ("j", "j"), ("k", "k"), ("l", "l"), ("m", "m"), ("n", "n"), ("o", "o"), ("p", "p"),
      ("q", "q"), ("r", "r"), ("s", "s"), ("t", "t"), ("u", "u"), ("v", "v"), ("w", "w"), ("x", "x"),
      ("y", "y"), ("z", "z"), ("tab", "Tab"), ("enter", "Enter"), ("space", " "), ("f1", "F1"), ("f2", "F2"),
      ("f3", "F3"), ("f4", "F4"), ("f5", "F5"), ("f6", "F6"), ("f7", "F7"), ("f8", "F8"), ("f9", "F9"),
      ("f10", "F10"), ("f11", "F11"), ("f12", "F12")
    ])
  }

  /** `shortcuts.ctrlAlt`. */
  function CtrlAltGroup(): Group {
    Group("ctrlAlt", true, false, true, false, [
      ("a", "a"), ("b", "b"), ("c", "c"), ("d", "d"), ("e", "e"), ("f", "f"), ("g", "g"), ("h", "h"),
      ("i", "i"), ("j", "j"), ("k", "k"), ("l", "l"), ("m", "m"), ("n", "n"), ("o", "o"), ("p", "p"),
      ("q", "q"), ("r", "r"), ("s", "s"), ("t", "t"), ("u", "u"), ("v", "v"), ("w", "w"), ("x", "x"),
      ("y", "y"), ("z", "z"), ("f1", "F1"), ("f2", "F2"), ("f3", "F3"), ("f4", "F4"), ("f5", "F5"),
      ("f6", "F6"), ("f7", "F7"), ("f8", "F8"), ("f9", "F9"), ("f10", "F10"), ("f11", "F11"), ("f12", "F12")
    ])
  }

  /** `shortcuts.shiftAlt`. */
  function ShiftAltGroup(): Group {
    Group("shiftAlt", false, true, true, false, [
      ("a", "a"), ("b", "b"), ("c", "c"), ("d", "d"), ("e", "e"), ("f", "f"), ("g", "g"), ("h", "h"),
      ("i", "i"), ("j", "j"), ("k", "k"), ("l", "l"), ("m", "m"), ("n", "n"), ("o", "o"), ("p", "p"),
      ("q", "q"), ("r", "r"), ("s", "s"), ("t", "t"), ("u", "u"), ("v", "v"), ("w", "w"), ("x", "x"),
      ("y", "y"), ("z", "z"), ("f1", "F1"), ("f2", "F2"), ("f3", "F3"), ("f4", "F4"), ("f5", "F5"),
      ("f6", "F6"), ("f7", "F7"), ("f8", "F8"), ("f9", "F9"), ("f10", "F10"), ("f11", "F11"), ("f12", "F12")
    ])
  }

  /** The whole table, ungrouped keys first, groups in the order they are written. */
  function Table(): seq<Group> {
    [Plain(), CtrlGroup(), ShiftGroup(), AltGroup(), MetaGroup(), CtrlShiftGroup(), CtrlAltGroup(), ShiftAltGroup()]
  }

  /** An entry's shortcut is triggered only with exactly its group's modifiers held. */
  lemma EntryNeedsGroupModifiers(g: Group, key: string, e: KeyEvent)
    requires MatchesShortcut(e, Keys(EntryShortcut(g, key)))
    ensures e.ctrlKey == g.ctrl && e.shiftKey == g.shift && e.altKey == g.alt && e.metaKey == g.meta
  {
  }
}
