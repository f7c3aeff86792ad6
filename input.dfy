/** The key classifier of input.rs: a key press and the focused zone become a
    semantic `Input`. */
module KeyInput {
  import opened Keys

  /** Which pane interprets raw keys (declared in ratatui_app/mod.rs). */
  datatype SelectedZone = ChatHistory | TextInput

  /** The commands a key can mean. `Back`, `Toggle` and `ToggleLlmOptions` are
      used by the newer session handler only; the two-argument classifier below
      never produces them. */
  datatype Input =
    | ScrollUp
    | ScrollDown
    | ChangeWindowUp
    | ChangeWindowDown
    | Quit
    | Submit
    | TextAreaInput(key: KeyEvent)
    | None
    | Back
    | Toggle
    | ToggleLlmOptions

  /** The bindings that hold in every zone; `None` when the key has none. */
  function GlobalBinding(key: KeyEvent): Input {
    if key.code == Esc then Quit
    else if IsChord(key, 'k', CONTROL) then ChangeWindowUp
    else if IsChord(key, 'j', CONTROL) then ChangeWindowDown
    else None
  }

  /** `From<(KeyEvent, SelectedZone)> for Input`: the global bindings first,
      then the bindings of the zone, in the order of the source's match arms. */
  function Classify(key: KeyEvent, zone: SelectedZone): Input {
    var global := GlobalBinding(key);
    if global != None then global
    else if IsChord(key, 'q', NONE) && zone == ChatHistory then Quit
    else if IsChord(key, 's', CONTROL) && zone == TextInput then Submit
    else if zone == TextInput then TextAreaInput(key)
    else if IsChord(key, 'k', NONE) then ScrollUp
    else if IsChord(key, 'j', NONE) then ScrollDown
    else None
  }

  /** A key is global when it is Esc, Ctrl-k or Ctrl-j. */
  predicate IsGlobalKey(key: KeyEvent) {
    key.code == Esc || IsChord(key, 'k', CONTROL) || IsChord(key, 'j', CONTROL)
  }

  /** Esc quits from every zone. */
  lemma EscQuitsEverywhere(key: KeyEvent, zone: SelectedZone)
    requires key.code == Esc
    ensures Classify(key, zone) == Quit
  {
  }

  /** A global binding wins over every zone binding, whatever the zone. */
  lemma GlobalBeforeZone(key: KeyEvent, zone: SelectedZone)
    requires IsGlobalKey(key)
    ensures Classify(key, zone) == GlobalBinding(key) != None
    ensures IsChord(key, 'k', CONTROL) ==> Classify(key, zone) == ChangeWindowUp
    ensures IsChord(key, 'j', CONTROL) ==> Classify(key, zone) == ChangeWindowDown
  {
  }

  /** In the text input, Ctrl-s submits, every other non-global key (plain q
      included) is handed to the text area unchanged, and nothing is `None`. */
  lemma TextInputBindings(key: KeyEvent)
    requires !IsGlobalKey(key)
    ensures Classify(key, TextInput) == if IsChord(key, 's', CONTROL) then Submit else TextAreaInput(key)
    ensures Classify(key, TextInput) != None
  {
  }

  /** In the chat history, plain q, k and j quit and scroll, and every other
      non-global key (Ctrl-s included) means nothing. */
  lemma ChatHistoryBindings(key: KeyEvent)
    requires !IsGlobalKey(key)
    ensures Classify(key, ChatHistory) ==
      if IsChord(key, 'q', NONE) then Quit
      else if IsChord(key, 'k', NONE) then ScrollUp
      else if IsChord(key, 'j', NONE) then ScrollDown
      else None
  {
  }

  /** The classifier as a decision table: each result, and exactly the keys that produce it. */
  lemma ClassifyTable(key: KeyEvent, zone: SelectedZone)
    ensures Classify(key, zone) == Quit <==>
      key.code == Esc || (zone == ChatHistory && IsChord(key, 'q', NONE))
    ensures Classify(key, zone) == ChangeWindowUp <==> IsChord(key, 'k', CONTROL)
    ensures Classify(key, zone) == ChangeWindowDown <==> IsChord(key, 'j', CONTROL)
    ensures Classify(key, zone) == Submit <==> zone == TextInput && IsChord(key, 's', CONTROL)
    ensures Classify(key, zone) == ScrollUp <==> zone == ChatHistory && IsChord(key, 'k', NONE)
    ensures Classify(key, zone) == ScrollDown <==> zone == ChatHistory && IsChord(key, 'j', NONE)
    ensures Classify(key, zone).TextAreaInput? <==>
      zone == TextInput && !IsGlobalKey(key) && !IsChord(key, 's', CONTROL)
    ensures Classify(key, zone).TextAreaInput? ==> Classify(key, zone).key == key
    ensures Classify(key, zone) != Back && Classify(key, zone) != Toggle
    ensures Classify(key, zone) != ToggleLlmOptions
  {
  }
}
