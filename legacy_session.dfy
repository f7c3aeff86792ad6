/** The older session engine (ratatui_app/mod.rs): the same `App` without the
    options popover, matching raw key events directly instead of decoding
    them, and ignoring error events. The text area's editing is a parameter. */
module LegacySession {
  import opened Wrappers
  import opened Keys
  import opened KeyInput
  import opened Events
  import opened Provider
  import opened SessionState
  import Session

  /** The older `handle_key_event`: the arms of its match, in order. */
  function LegacyKeyTransition(s: AppState, key: KeyEvent, edit: TextEdit): AppState {
    if key.code == Esc then s.(exit := true)
    else if IsChord(key, 'k', CONTROL) then s.(zone := ZoneAfter(Up, s.zone))
    else if IsChord(key, 'j', CONTROL) then s.(zone := ZoneAfter(Down, s.zone))
    else if key.code == Char('j') && s.zone == ChatHistory then s.(scroll := Scrolled(Down, s.scroll))
    else if key.code == Char('k') && s.zone == ChatHistory then s.(scroll := Scrolled(Up, s.scroll))
    else if IsChord(key, 's', CONTROL) && s.zone == TextInput then Submitted(s)
    else if s.zone == TextInput then (if s.generating then s else s.(draft := edit(s.draft, key)))
    else s
  }

  /** The older `handle_event`: only presses, chunks and Finished do anything. */
  function LegacyEventTransition(s: AppState, e: Event, edit: TextEdit): AppState {
    match e
    case Key(key) => if key.kind == Press then LegacyKeyTransition(s, key, edit) else s
    case LlmResponse(response) =>
      (match response
       case Chunk(text) => WithChunk(s, text)
       case Finished => GenerationReset(s))
    case Tick => s
    case Error(_) => s
  }

  /** `run` over a sequence of events: it stops once `exit` is set. */
  function LegacyRun(s: AppState, events: seq<Event>, edit: TextEdit): AppState
    decreases |events|
  {
    if events == [] || s.exit then s else LegacyRun(LegacyEventTransition(s, events[0], edit), events[1..], edit)
  }

  class LegacyApp {
    const provider: Provider
    var lastAddedIndex: Option<nat>
    var scroll: nat
    var textarea: seq<string>
    var exit: bool
    var selectedZone: SelectedZone
    var generating: bool
    var launched: seq<string>

    /** The shared state record; this revision has no popover and no tool list selection. */
    function State(): AppState
      reads this, provider, provider.flags
    {
      AppState(selectedZone, Option.None, generating, lastAddedIndex, exit, textarea, provider.history,
               provider.flags.search, Option.None, scroll, launched)
    }

    /** `App::new`: focus on the text input, nothing streaming, not exiting, an empty draft. */
    constructor (provider: Provider)
      ensures this.provider == provider
      ensures State() == AppState(TextInput, Option.None, false, Option.None, false, [""], provider.history,
                                  provider.flags.search, Option.None, 0, [])
    {
      this.provider := provider;
      lastAddedIndex := Option.None;
      scroll := 0;
      textarea := EmptyDraft;
      exit := false;
      selectedZone := TextInput;
      generating := false;
      launched := [];
    }

    method Exit()
      modifies this
      ensures State() == old(State()).(exit := true)
    {
      exit := true;
    }

    method ChangeWindow(direction: WindowDirection)
      modifies this
      ensures State() == old(State()).(zone := ZoneAfter(direction, old(selectedZone)))
    {
      match direction {
        case Up =>
          match selectedZone {
            case ChatHistory => selectedZone := TextInput;
            case TextInput => selectedZone := ChatHistory;
          }
        case Down =>
          match selectedZone {
            case ChatHistory => selectedZone := TextInput;
            case TextInput => selectedZone := ChatHistory;
          }
      }
    }

    method ScrollChatHistory(direction: WindowDirection)
      modifies this
      ensures State() == old(State()).(scroll := Scrolled(direction, old(scroll)))
    {
      match direction
      case Up =>
        if scroll > 0 {
          scroll := scroll - 1;
        }
      case Down =>
        if scroll < U16_MAX {
          scroll := scroll + 1;
        }
    }

    method SubmitPrompt()
      modifies this, provider
      ensures State() == Submitted(old(State()))
    {
      var prompt := PromptText(textarea);
      var _ := provider.AddChatToContext(Chat(UserChat(prompt)));
      textarea := EmptyDraft;
      generating := true;
      launched := launched + [prompt];
    }

    method HandleKeyEvent(key: KeyEvent, edit: TextEdit)
      modifies this, provider
      ensures State() == LegacyKeyTransition(old(State()), key, edit)
    {
      if key.code == Esc {
        Exit();
      } else if IsChord(key, 'k', CONTROL) {
        ChangeWindow(Up);
      } else if IsChord(key, 'j', CONTROL) {
        ChangeWindow(Down);
      } else if key.code == Char('j') && selectedZone == ChatHistory {
        ScrollChatHistory(Down);
      } else if key.code == Char('k') && selectedZone == ChatHistory {
        ScrollChatHistory(Up);
      } else if IsChord(key, 's', CONTROL) && selectedZone == TextInput {
        SubmitPrompt();
      } else if selectedZone == TextInput {
        if !generating {
          textarea := edit(textarea, key);
        }
      }
    }

    method HandleEvent(e: Event, edit: TextEdit)
      modifies this, provider
      ensures State() == LegacyEventTransition(old(State()), e, edit)
    {
      match e
      case Key(key) =>
        if key.kind == Press {
          HandleKeyEvent(key, edit);
        }
      case LlmResponse(response) =>
        match response {
          case Chunk(text) =>
            if lastAddedIndex.Some? {
              provider.AppendChatInContext(lastAddedIndex.value, text);
            } else {
              lastAddedIndex := provider.AddChatToContext(Chat(ModelChat(text)));
            }
          case Finished =>
            generating := false;
            lastAddedIndex := Option.None;
        }
      case Tick =>
      case Error(_) =>
    }

    /** `run`, over a given sequence of events instead of the event channel. */
    method RunEvents(events: seq<Event>, edit: TextEdit)
      modifies this, provider
      ensures State() == LegacyRun(old(State()), events, edit)
    {
      var i := 0;
      while i < |events| && !exit
        invariant 0 <= i <= |events|
        invariant LegacyRun(old(State()), events, edit) == LegacyRun(State(), events[i..], edit)
      {
        assert events[i..][0] == events[i] && events[i..][1..] == events[i + 1..];
        HandleEvent(events[i], edit);
        i := i + 1;
      }
    }
  }

  /** Ticks, errors and key releases or repeats change nothing; unlike the
      newer revision, an error does not end the generation. */
  lemma LegacyIgnoredEvents(s: AppState, key: KeyEvent, cause: ErrorCause, edit: TextEdit)
    requires key.kind != Press
    ensures LegacyEventTransition(s, Key(key), edit) == s
    ensures LegacyEventTransition(s, Tick, edit) == s
    ensures LegacyEventTransition(s, Error(cause), edit) == s
  {
  }

  /** Stream events are handled as in the newer revision: the chunk rule and the Finished reset. */
  lemma LegacyStreamEventsAgree(s: AppState, response: LlmResponse, decode: KeyEvent -> Input, edit: TextEdit)
    ensures Session.EventTransition(s, LlmResponse(response), decode, edit) ==
      Session.Transition(LegacyEventTransition(s, LlmResponse(response), edit), Session.Done)
    ensures response == Finished ==>
      LegacyEventTransition(s, LlmResponse(response), edit) == s.(generating := false, lastAddedIndex := Option.None)
  {
  }

  /** The older global keys: Esc exits from either zone, Ctrl-k and Ctrl-j swap the focus. */
  lemma LegacyGlobalKeys(s: AppState, key: KeyEvent, edit: TextEdit)
    ensures key.code == Esc ==> LegacyKeyTransition(s, key, edit) == s.(exit := true)
    ensures IsChord(key, 'k', CONTROL) || IsChord(key, 'j', CONTROL) ==>
      LegacyKeyTransition(s, key, edit) == s.(zone := if s.zone == TextInput then ChatHistory else TextInput)
  {
  }

  /** In the text input Ctrl-s submits even while a reply is streaming, and any
      other non-global key reaches the text area only when none is. */
  lemma LegacyTextInputKeys(s: AppState, key: KeyEvent, edit: TextEdit)
    requires s.zone == TextInput
    requires key.code != Esc && !IsChord(key, 'k', CONTROL) && !IsChord(key, 'j', CONTROL)
    ensures IsChord(key, 's', CONTROL) ==> LegacyKeyTransition(s, key, edit) == Submitted(s)
    ensures !IsChord(key, 's', CONTROL) ==>
      LegacyKeyTransition(s, key, edit) == if s.generating then s else s.(draft := edit(s.draft, key))
  {
  }

  /** In the chat history, j and k scroll with any modifiers except exactly
      Control (those are the global window keys), and every other non-global
      key, Ctrl-s included, does nothing. */
  lemma LegacyChatHistoryKeys(s: AppState, key: KeyEvent, edit: TextEdit)
    requires s.zone == ChatHistory
    requires key.code != Esc && !IsChord(key, 'k', CONTROL) && !IsChord(key, 'j', CONTROL)
    ensures key.code == Char('j') ==> LegacyKeyTransition(s, key, edit) == s.(scroll := Scrolled(Down, s.scroll))
    ensures key.code == Char('k') ==> LegacyKeyTransition(s, key, edit) == s.(scroll := Scrolled(Up, s.scroll))
    ensures key.code != Char('j') && key.code != Char('k') ==> LegacyKeyTransition(s, key, edit) == s
    ensures IsChord(key, 's', CONTROL) ==> LegacyKeyTransition(s, key, edit) == s
  {
  }

  /** While a reply streams, the draft changes only by being submitted. */
  lemma LegacyDraftFrozenWhileGenerating(s: AppState, e: Event, edit: TextEdit)
    requires s.generating
    ensures var r := LegacyEventTransition(s, e, edit);
      r.draft == s.draft || (r == Submitted(s) && s.zone == TextInput)
  {
  }

  /** The older classifier in input.rs and the older handler disagree on
      modified j and k in the chat history: for every modifier set other than
      none and exactly Control, the handler scrolls and the classifier reports
      no input. */
  lemma ShiftedScrollKeys(s: AppState, key: KeyEvent, edit: TextEdit)
    requires s.zone == ChatHistory
    requires key.code == Char('j') || key.code == Char('k')
    requires key.modifiers != NONE && key.modifiers != CONTROL
    ensures key.code == Char('j') ==> LegacyKeyTransition(s, key, edit) == s.(scroll := Scrolled(Down, s.scroll))
    ensures key.code == Char('k') ==> LegacyKeyTransition(s, key, edit) == s.(scroll := Scrolled(Up, s.scroll))
    ensures Classify(key, ChatHistory) == KeyInput.None
  {
  }

  /** The streaming target stays a valid Model entry across every event. */
  lemma LegacyKeepsStreamTarget(s: AppState, e: Event, edit: TextEdit)
    requires StreamTargetValid(s)
    ensures StreamTargetValid(LegacyEventTransition(s, e, edit))
  {
    match e
    case LlmResponse(Chunk(text)) => ChunkRule(s, text);
    case Key(key) => SubmitRule(s);
    case _ =>
  }

  /** A whole run of the older loop keeps the streaming target valid. */
  lemma {:induction false} LegacyRunKeepsStreamTarget(s: AppState, events: seq<Event>, edit: TextEdit)
    requires StreamTargetValid(s)
    ensures StreamTargetValid(LegacyRun(s, events, edit))
    decreases |events|
  {
    if events != [] && !s.exit {
      LegacyKeepsStreamTarget(s, events[0], edit);
      LegacyRunKeepsStreamTarget(LegacyEventTransition(s, events[0], edit), events[1..], edit);
    }
  }

  /** The older loop handles nothing once the exit flag is set. */
  lemma LegacyExitStopsRun(s: AppState, events: seq<Event>, edit: TextEdit)
    requires s.exit
    ensures LegacyRun(s, events, edit) == s
  {
  }

  /** Esc ends the older loop: the events after it are never handled. */
  lemma {:induction false} LegacyEscEndsRun(s: AppState, esc: KeyEvent, rest: seq<Event>, edit: TextEdit)
    requires !s.exit && esc.code == Esc && esc.kind == Press
    ensures LegacyRun(s, [Key(esc)] + rest, edit) == s.(exit := true)
  {
    assert ([Key(esc)] + rest)[0] == Key(esc) && ([Key(esc)] + rest)[1..] == rest;
    LegacyExitStopsRun(s.(exit := true), rest, edit);
  }
}
