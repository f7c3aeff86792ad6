/** The terminal key events the session reacts to (crossterm's `KeyEvent`). */
module Keys {

  /** The key itself. `Other` stands for every code the client never matches
      on by name (Enter, Backspace, arrows, function keys, ...). */
  datatype KeyCode = Char(ch: char) | Esc | Other(id: nat)

  datatype Modifier = Shift | Control | Alt | Super | Hyper | Meta

  /** crossterm's `KeyModifiers` bit set; a pattern such as
      `KeyModifiers::CONTROL` matches exactly that set. */
  type KeyModifiers = set<Modifier>

  const CONTROL: KeyModifiers := {Control}
  const NONE: KeyModifiers := {}

  datatype KeyEventKind = Press | Repeat | Release

  datatype KeyEvent = KeyEvent(code: KeyCode, modifiers: KeyModifiers, kind: KeyEventKind)

  /** `code` pressed together with exactly the modifiers `mods`. */
  predicate IsChord(key: KeyEvent, c: char, mods: KeyModifiers) {
    key.code == Char(c) && key.modifiers == mods
  }
}
