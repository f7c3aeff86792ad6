/** The newer session engine (ratatui_app/state_handling.rs): how `App`
    folds terminal keys, stream events and errors into its state, with the
    options popover in front of the global and zone bindings.

    The key decoder (`Input::from(key_event)`) of this revision and the text
    area's editing are parameters: `decode` and `edit`. */
module Session {
  import opened Wrappers
  import opened Keys
  import opened KeyInput
  import opened Events
  import opened Provider
  import opened Tools
  import opened SessionState

  /** Why `handle_event` returns an error. */
  datatype EngineError = CriticalIo(cause: ErrorCause) | UnknownToolIndex(index: nat)

  datatype Outcome = Done | Failed(error: EngineError)

  /** The state after one step and whether the step returned an error. */
  datatype Transition = Transition(state: AppState, outcome: Outcome)

  function Step(s: AppState): Transition {
    Transition(s, Done)
  }

  /** The inputs the open popover handles itself. */
  predicate PopoverHandles(input: Input) {
    input == Back || input == Quit || input == ScrollUp || input == ScrollDown || input == Toggle
  }

  /** The inputs the global bindings handle. */
  predicate GlobalHandles(input: Input) {
    input == Quit || input == ChangeWindowUp || input == ChangeWindowDown || input == ToggleLlmOptions
  }

  /** Toggle in the tool list: the selected index names a tool whose flag is
      flipped; no selection does nothing; an index naming no tool is an error. */
  function ToggleSelected(s: AppState): Transition {
    if s.toolSelection.None? then Step(s)
    else
      var tool := FromRepr(s.toolSelection.value);
      if tool.None? then Transition(s, Failed(UnknownToolIndex(s.toolSelection.value)))
      else Step(s.(search := ToggledSearch(s.search, tool.value)))
  }

  /** The bindings of the open popover; `None` when it is closed or does not handle the input. */
  function PopoverKey(s: AppState, input: Input): Option<Transition> {
    if s.popover.None? then Option.None
    else if input == Back then Some(Step(s.(popover := Option.None)))
    else if input == Quit then Some(Step(s.(exit := true)))
    else
      match s.popover.value
      case LlmToolList =>
        if input == ScrollUp then Some(Step(s.(toolSelection := SelectedPrevious(s.toolSelection))))
        else if input == ScrollDown then Some(Step(s.(toolSelection := SelectedNext(s.toolSelection))))
        else if input == Toggle then Some(ToggleSelected(s))
        else Option.None
  }

  /** The global bindings; `None` when the input is not one of them. */
  function GlobalKey(s: AppState, input: Input): Option<AppState> {
    if input == Quit then Some(s.(exit := true))
    else if input == ChangeWindowUp then Some(s.(zone := ZoneAfter(Up, s.zone)))
    else if input == ChangeWindowDown then Some(s.(zone := ZoneAfter(Down, s.zone)))
    else if input == ToggleLlmOptions then
      Some(s.(popover := if s.popover == Some(LlmToolList) then Option.None else Some(LlmToolList)))
    else Option.None
  }

  /** The bindings of the focused zone. */
  function ZoneKey(s: AppState, input: Input, key: KeyEvent, edit: TextEdit): AppState {
    match s.zone
    case TextInput => if input == Submit then Submitted(s) else s.(draft := edit(s.draft, key))
    case ChatHistory =>
      if input == ScrollUp then s.(scroll := Scrolled(Up, s.scroll))
      else if input == ScrollDown then s.(scroll := Scrolled(Down, s.scroll))
      else if input == Submit && !s.generating then Submitted(s)
      else s
  }

  /** The global bindings, and the zone bindings for every other input. */
  function GlobalThenZone(s: AppState, input: Input, key: KeyEvent, edit: TextEdit): Transition {
    var global := GlobalKey(s, input);
    if global.Some? then Step(global.value) else Step(ZoneKey(s, input, key, edit))
  }

  /** `handle_key_event`: the popover first, then the global bindings, then the zone. */
  function KeyTransition(s: AppState, key: KeyEvent, decode: KeyEvent -> Input, edit: TextEdit): Transition {
    var input := decode(key);
    var popover := PopoverKey(s, input);
    if popover.Some? then popover.value else GlobalThenZone(s, input, key, edit)
  }

  /** `handle_event`. */
  function EventTransition(s: AppState, e: Event, decode: KeyEvent -> Input, edit: TextEdit): Transition {
    match e
    case Tick => Step(s)
    case Key(key) => if key.kind == Press then KeyTransition(s, key, decode, edit) else Step(s)
    case LlmResponse(response) =>
      (match response
       case Chunk(text) => Step(WithChunk(s, text))
       case Finished => Step(GenerationReset(s)))
    case Error(cause) =>
      if IsIoRooted(cause) then Transition(s, Failed(CriticalIo(cause))) else Step(GenerationReset(s))
  }

  /** The `run` loop over a sequence of events: it stops once `exit` is set or a step fails. */
  function Run(s: AppState, events: seq<Event>, decode: KeyEvent -> Input, edit: TextEdit): Transition
    decreases |events|
  {
    if events == [] || s.exit then Step(s)
    else
      var t := EventTransition(s, events[0], decode, edit);
      if t.outcome.Failed? then t else Run(t.state, events[1..], decode, edit)
  }

  /** The session object: its own fields and the provider it drives. */
  class App {
    const provider: Provider
    var lastAddedIndex: Option<nat>
    var scroll: nat
    var textarea: seq<string>
    var exit: bool
    var selectedZone: SelectedZone
    var generating: bool
    var popover: Option<Popover>
    var toolSelection: Option<nat>
    var launched: seq<string>

    function State(): AppState
      reads this, provider, provider.flags
    {
      AppState(selectedZone, popover, generating, lastAddedIndex, exit, textarea, provider.history,
               provider.flags.search, toolSelection, scroll, launched)
    }

    /** A fresh session over `provider`: focus on the text input, nothing
        streaming, no popover, an empty draft. */
    constructor (provider: Provider)
      ensures this.provider == provider
      ensures State() == AppState(TextInput, Option.None, false, Option.None, false, [""], provider.history,
                                  provider.flags.search, Option.None, 0, [])
    {
      this.provider := provider;
      lastAddedIndex := Option.None;
      scroll := 0;
      textarea := EmptyDraft;
      exit := false;
      selectedZone := TextInput;
      generating := false;
      popover := Option.None;
      toolSelection := Option.None;
      launched := [];
    }

    method Exit()
      modifies this
      ensures State() == old(State()).(exit := true)
    {
      exit := true;
    }

    method ChangeWindow(direction: WindowDirection)
      modifies this
      ensures State() == old(State()).(zone := ZoneAfter(direction, old(selectedZone)))
    {
      match direction {
        case Up =>
          match selectedZone {
            case ChatHistory => selectedZone := TextInput;
            case TextInput => selectedZone := ChatHistory;
          }
        case Down =>
          match selectedZone {
            case ChatHistory => selectedZone := TextInput;
            case TextInput => selectedZone := ChatHistory;
          }
      }
    }

    method ScrollChatHistory(direction: WindowDirection)
      modifies this
      ensures State() == old(State()).(scroll := Scrolled(direction, old(scroll)))
    {
      match direction
      case Up =>
        if scroll > 0 {
          scroll := scroll - 1;
        }
      case Down =>
        if scroll < U16_MAX {
          scroll := scroll + 1;
        }
    }

    method SubmitPrompt()
      modifies this, provider
      ensures State() == Submitted(old(State()))
    {
      var prompt := PromptText(textarea);
      var _ := provider.AddChatToContext(Chat(UserChat(prompt)));
      textarea := EmptyDraft;
      generating := true;
      launched := launched + [prompt];
    }

    method HandleKeyEvent(key: KeyEvent, decode: KeyEvent -> Input, edit: TextEdit) returns (outcome: Outcome)
      modifies this, provider, provider.flags
      ensures Transition(State(), outcome) == KeyTransition(old(State()), key, decode, edit)
    {
      var input := decode(key);
      if popover.Some? {
        if input == Back {
          popover := Option.None;
          return Done;
        }
        if input == Quit {
          Exit();
          return Done;
        }
        match popover.value
        case LlmToolList =>
          if input == ScrollUp {
            toolSelection := SelectedPrevious(toolSelection);
            return Done;
          }
          if input == ScrollDown {
            toolSelection := SelectedNext(toolSelection);
            return Done;
          }
          if input == Toggle {
            if toolSelection.Some? {
              var tool := FromRepr(toolSelection.value);
              if tool.None? {
                return Failed(UnknownToolIndex(toolSelection.value));
              }
              provider.flags.Toggle(tool.value);
            }
            return Done;
          }
      }
      if input == Quit {
        Exit();
        return Done;
      }
      if input == ChangeWindowUp || input == ChangeWindowDown {
        ChangeWindow(if input == ChangeWindowUp then Up else Down);
        return Done;
      }
      if input == ToggleLlmOptions {
        if popover == Some(LlmToolList) {
          popover := Option.None;
        } else {
          popover := Some(LlmToolList);
        }
        return Done;
      }
      match selectedZone {
        case TextInput =>
          if input == Submit {
            SubmitPrompt();
          } else {
            textarea := edit(textarea, key);
          }
        case ChatHistory =>
          if input == ScrollUp {
            ScrollChatHistory(Up);
          } else if input == ScrollDown {
            ScrollChatHistory(Down);
          } else if input == Submit && !generating {
            SubmitPrompt();
          }
      }
      return Done;
    }

    method HandleEvent(e: Event, decode: KeyEvent -> Input, edit: TextEdit) returns (outcome: Outcome)
      modifies this, provider, provider.flags
      ensures Transition(State(), outcome) == EventTransition(old(State()), e, decode, edit)
    {
      outcome := Done;
      match e
      case Tick =>
      case Key(key) =>
        if key.kind == Press {
          outcome := HandleKeyEvent(key, decode, edit);
        }
      case LlmResponse(response) =>
        match response {
          case Chunk(text) =>
            if lastAddedIndex.Some? {
              provider.AppendChatInContext(lastAddedIndex.value, text);
            } else {
              lastAddedIndex := provider.AddChatToContext(Chat(ModelChat(text)));
            }
          case Finished =>
            generating := false;
            lastAddedIndex := Option.None;
        }
      case Error(cause) =>
        if IsIoRooted(cause) {
          return Failed(CriticalIo(cause));
        }
        generating := false;
        lastAddedIndex := Option.None;
    }

    /** `run`, over a given sequence of events instead of the event channel. */
    method RunEvents(events: seq<Event>, decode: KeyEvent -> Input, edit: TextEdit) returns (outcome: Outcome)
      modifies this, provider, provider.flags
      ensures Transition(State(), outcome) == Run(old(State()), events, decode, edit)
    {
      outcome := Done;
      var i := 0;
      while i < |events| && !exit
        invariant 0 <= i <= |events|
        invariant outcome == Done
        invariant Run(old(State()), events, decode, edit) == Run(State(), events[i..], decode, edit)
      {
        assert events[i..][0] == events[i] && events[i..][1..] == events[i + 1..];
        outcome := HandleEvent(events[i], decode, edit);
        if outcome.Failed? {
          return;
        }
        i := i + 1;
      }
    }
  }

  /** Key events other than presses, and ticks, change nothing. */
  lemma IgnoredEvents(s: AppState, key: KeyEvent, decode: KeyEvent -> Input, edit: TextEdit)
    requires key.kind != Press
    ensures EventTransition(s, Key(key), decode, edit) == Transition(s, Done)
    ensures EventTransition(s, Tick, decode, edit) == Transition(s, Done)
  {
  }

  /** The chunk rule as events see it: the first chunk adds a Model chat holding
      exactly the chunk and remembers its index; later chunks extend that chat. */
  lemma ChunkEventRule(s: AppState, text: string, decode: KeyEvent -> Input, edit: TextEdit)
    requires StreamTargetValid(s)
    ensures var t := EventTransition(s, LlmResponse(Chunk(text)), decode, edit);
      t.outcome == Done && StreamTargetValid(t.state) &&
      (s.lastAddedIndex.None? ==>
        t.state == s.(history := s.history + [Chat(ChatData(Model, text))], lastAddedIndex := Some(|s.history|))) &&
      (s.lastAddedIndex.Some? ==>
        t.state.lastAddedIndex == s.lastAddedIndex && |t.state.history| == |s.history| &&
        t.state.history[s.lastAddedIndex.value] ==
          Chat(ChatData(Model, s.history[s.lastAddedIndex.value].chat.text + text)))
  {
    ChunkRule(s, text);
  }

  /** Finished, and an error not rooted in IO, end the generation and touch
      nothing else; an IO-rooted error is returned and changes nothing. */
  lemma ResetEvents(s: AppState, cause: ErrorCause, decode: KeyEvent -> Input, edit: TextEdit)
    ensures EventTransition(s, LlmResponse(Finished), decode, edit) ==
      Transition(s.(generating := false, lastAddedIndex := Option.None), Done)
    ensures !IsIoRooted(cause) ==>
      EventTransition(s, Error(cause), decode, edit) ==
        Transition(s.(generating := false, lastAddedIndex := Option.None), Done)
    ensures IsIoRooted(cause) ==>
      EventTransition(s, Error(cause), decode, edit) == Transition(s, Failed(CriticalIo(cause)))
  {
  }

  /** The events a run of chunks arrives as. */
  function ChunkEvents(chunks: seq<string>): (events: seq<Event>)
    ensures |events| == |chunks|
    ensures forall k :: 0 <= k < |chunks| ==> events[k] == LlmResponse(Chunk(chunks[k]))
  {
    seq(|chunks|, k requires 0 <= k < |chunks| => LlmResponse(Chunk(chunks[k])))
  }

  /** Running the events of `a` and then those of `b`. */
  lemma {:induction false} RunAppend(s: AppState, a: seq<Event>, b: seq<Event>, decode: KeyEvent -> Input, edit: TextEdit)
    ensures var t := Run(s, a, decode, edit);
      Run(s, a + b, decode, edit) == if t.outcome.Failed? then t else Run(t.state, b, decode, edit)
    decreases |a|
  {
    if a == [] {
      assert a + b == b;
    } else if !s.exit {
      assert (a + b)[0] == a[0] && (a + b)[1..] == a[1..] + b;
      var t := EventTransition(s, a[0], decode, edit);
      if t.outcome.Done? {
        RunAppend(t.state, a[1..], b, decode, edit);
      }
    } else {
      if b != [] {
        assert (a + b) != [];
      }
    }
  }

  /** Chunk events never stop the run and act as the chunk rule folded over them. */
  lemma {:induction false} RunChunks(s: AppState, chunks: seq<string>, decode: KeyEvent -> Input, edit: TextEdit)
    requires !s.exit
    ensures Run(s, ChunkEvents(chunks), decode, edit) == Step(WithChunks(s, chunks))
    decreases |chunks|
  {
    if chunks != [] {
      assert ChunkEvents(chunks)[1..] == ChunkEvents(chunks[1..]);
      RunChunks(WithChunk(s, chunks[0]), chunks[1..], decode, edit);
    }
  }

  /** The chunks of one reply, then Finished, leave exactly one new Model entry
      holding their concatenation, and end the generation. */
  lemma ChunksThenFinishedBuildOneEntry(s: AppState, chunks: seq<string>, decode: KeyEvent -> Input, edit: TextEdit)
    requires !s.exit && s.lastAddedIndex.None? && chunks != []
    ensures Run(s, ChunkEvents(chunks), decode, edit) ==
      Step(s.(history := s.history + [Chat(ChatData(Model, Concat(chunks)))], lastAddedIndex := Some(|s.history|)))
    ensures Run(s, ChunkEvents(chunks) + [LlmResponse(Finished)], decode, edit) ==
      Step(s.(history := s.history + [Chat(ChatData(Model, Concat(chunks)))], generating := false))
  {
    RunChunks(s, chunks, decode, edit);
    ChunksBuildOneEntry(s, chunks);
    RunAppend(s, ChunkEvents(chunks), [LlmResponse(Finished)], decode, edit);
  }

  /** The popover's own bindings. None of them changes the focus, the
      generation, the history, the draft or the scroll offset. */
  lemma PopoverBindings(s: AppState, key: KeyEvent, decode: KeyEvent -> Input, edit: TextEdit)
    requires s.popover.Some? && PopoverHandles(decode(key))
    ensures var t := KeyTransition(s, key, decode, edit);
      t.state.zone == s.zone && t.state.generating == s.generating && t.state.history == s.history &&
      t.state.draft == s.draft && t.state.scroll == s.scroll && t.state.lastAddedIndex == s.lastAddedIndex
    ensures decode(key) == Back ==> KeyTransition(s, key, decode, edit) == Step(s.(popover := Option.None))
    ensures decode(key) == Quit ==> KeyTransition(s, key, decode, edit) == Step(s.(exit := true))
    ensures decode(key) == ScrollUp ==>
      KeyTransition(s, key, decode, edit) == Step(s.(toolSelection := SelectedPrevious(s.toolSelection)))
    ensures decode(key) == ScrollDown ==>
      KeyTransition(s, key, decode, edit) == Step(s.(toolSelection := SelectedNext(s.toolSelection)))
    ensures decode(key) == Toggle && s.toolSelection.None? ==> KeyTransition(s, key, decode, edit) == Step(s)
    ensures decode(key) == Toggle && s.toolSelection == Some(0) ==>
      KeyTransition(s, key, decode, edit) == Step(s.(search := !s.search))
    ensures decode(key) == Toggle && s.toolSelection.Some? && s.toolSelection.value != 0 ==>
      KeyTransition(s, key, decode, edit) == Transition(s, Failed(UnknownToolIndex(s.toolSelection.value)))
  {
  }

  /** The popover does not swallow input it does not handle: that input goes on
      to the global bindings and then to the zone, as with no popover. */
  lemma PopoverFallsThrough(s: AppState, key: KeyEvent, decode: KeyEvent -> Input, edit: TextEdit)
    requires !PopoverHandles(decode(key))
    ensures KeyTransition(s, key, decode, edit) == GlobalThenZone(s, decode(key), key, edit)
    ensures !GlobalHandles(decode(key)) ==>
      KeyTransition(s, key, decode, edit) == Step(ZoneKey(s, decode(key), key, edit))
  {
  }

  /** With the popover open, text typed in the text input still edits the draft. */
  lemma PopoverLetsTextThrough(s: AppState, key: KeyEvent, decode: KeyEvent -> Input, edit: TextEdit)
    requires s.popover == Some(LlmToolList) && s.zone == TextInput
    requires decode(key).TextAreaInput?
    ensures KeyTransition(s, key, decode, edit) == Step(s.(draft := edit(s.draft, key)))
  {
  }

  /** ToggleLlmOptions opens a closed popover and closes an open one, changing
      nothing else; pressing it twice restores the state. */
  lemma ToggleLlmOptionsFlips(s: AppState, key: KeyEvent, decode: KeyEvent -> Input, edit: TextEdit)
    requires decode(key) == ToggleLlmOptions
    ensures KeyTransition(s, key, decode, edit) ==
      Step(s.(popover := if s.popover.None? then Some(LlmToolList) else Option.None))
    ensures KeyTransition(KeyTransition(s, key, decode, edit).state, key, decode, edit).state == s
  {
    if s.popover.Some? {
      assert s.popover.value == LlmToolList;
    }
  }

  /** Either window key swaps the focus, so any two of them restore the state. */
  lemma ChangeWindowTwice(s: AppState, k1: KeyEvent, k2: KeyEvent, decode: KeyEvent -> Input, edit: TextEdit)
    requires decode(k1) == ChangeWindowUp || decode(k1) == ChangeWindowDown
    requires decode(k2) == ChangeWindowUp || decode(k2) == ChangeWindowDown
    ensures KeyTransition(s, k1, decode, edit).state.zone != s.zone
    ensures KeyTransition(KeyTransition(s, k1, decode, edit).state, k2, decode, edit).state == s
  {
    ZoneSwitchTwice(if decode(k1) == ChangeWindowUp then Up else Down,
                    if decode(k2) == ChangeWindowUp then Up else Down, s.zone);
  }

  /** In the text input Submit always submits, even while a reply is still
      streaming, and every other non-global input edits the draft. */
  lemma TextInputRules(s: AppState, key: KeyEvent, decode: KeyEvent -> Input, edit: TextEdit)
    requires s.zone == TextInput
    requires s.popover.None? || !PopoverHandles(decode(key))
    requires !GlobalHandles(decode(key))
    ensures decode(key) == Submit ==> KeyTransition(s, key, decode, edit) == Step(Submitted(s))
    ensures decode(key) != Submit ==> KeyTransition(s, key, decode, edit) == Step(s.(draft := edit(s.draft, key)))
  {
  }

  /** In the chat history Submit submits only when no reply is streaming;
      ScrollUp and ScrollDown move the offset; anything else does nothing. */
  lemma ChatHistoryRules(s: AppState, key: KeyEvent, decode: KeyEvent -> Input, edit: TextEdit)
    requires s.zone == ChatHistory
    requires s.popover.None? || !PopoverHandles(decode(key))
    requires !GlobalHandles(decode(key))
    ensures decode(key) == Submit ==>
      KeyTransition(s, key, decode, edit) == Step(if s.generating then s else Submitted(s))
    ensures decode(key) == ScrollUp ==> KeyTransition(s, key, decode, edit) == Step(s.(scroll := Scrolled(Up, s.scroll)))
    ensures decode(key) == ScrollDown ==>
      KeyTransition(s, key, decode, edit) == Step(s.(scroll := Scrolled(Down, s.scroll)))
    ensures decode(key) != Submit && decode(key) != ScrollUp && decode(key) != ScrollDown ==>
      KeyTransition(s, key, decode, edit) == Step(s)
  {
  }

  /** Every event keeps the streaming target a valid Model entry. */
  lemma EventKeepsStreamTarget(s: AppState, e: Event, decode: KeyEvent -> Input, edit: TextEdit)
    requires StreamTargetValid(s)
    ensures StreamTargetValid(EventTransition(s, e, decode, edit).state)
  {
    match e
    case LlmResponse(Chunk(text)) => ChunkRule(s, text);
    case Key(key) => SubmitRule(s);
    case _ =>
  }

  /** So does every run of events. */
  lemma {:induction false} RunKeepsStreamTarget(s: AppState, events: seq<Event>, decode: KeyEvent -> Input, edit: TextEdit)
    requires StreamTargetValid(s)
    ensures StreamTargetValid(Run(s, events, decode, edit).state)
    decreases |events|
  {
    if events != [] && !s.exit {
      EventKeepsStreamTarget(s, events[0], decode, edit);
      var t := EventTransition(s, events[0], decode, edit);
      if t.outcome.Done? {
        RunKeepsStreamTarget(t.state, events[1..], decode, edit);
      }
    }
  }

  /** A chunk arriving after an error has ended the generation (the stream
      task keeps sending after a failed item) opens a new streaming target
      while `generating` stays false: a target does not imply generating. */
  lemma ChunkAfterResetTargetsWhileIdle(s: AppState, cause: ErrorCause, text: string,
                                        decode: KeyEvent -> Input, edit: TextEdit)
    requires !IsIoRooted(cause)
    ensures var reset := EventTransition(s, Error(cause), decode, edit).state;
      var t := EventTransition(reset, LlmResponse(Chunk(text)), decode, edit);
      t.outcome == Done && !t.state.generating && t.state.lastAddedIndex == Some(|s.history|) &&
      t.state.history == s.history + [Chat(ChatData(Model, text))]
  {
  }

  /** The selection is not clamped to the one-item tool list: with nothing
      selected, two ScrollDown and a Toggle select index 1 and end the run with
      the unknown-index error. */
  lemma ScrollPastToolListFails(s: AppState, down: KeyEvent, toggle: KeyEvent,
                                decode: KeyEvent -> Input, edit: TextEdit)
    requires s.popover == Some(LlmToolList) && s.toolSelection.None? && !s.exit
    requires down.kind == Press && decode(down) == ScrollDown
    requires toggle.kind == Press && decode(toggle) == Toggle
    ensures Run(s, [Key(down), Key(down), Key(toggle)], decode, edit) ==
      Transition(s.(toolSelection := Some(1)), Failed(UnknownToolIndex(1)))
  {
    var s1 := s.(toolSelection := Some(0));
    var s2 := s.(toolSelection := Some(1));
    assert EventTransition(s, Key(down), decode, edit) == Step(s1);
    assert EventTransition(s1, Key(down), decode, edit) == Step(s2);
    assert FromRepr(1).None?;
    assert EventTransition(s2, Key(toggle), decode, edit) == Transition(s2, Failed(UnknownToolIndex(1)));
    assert Run(s2, [Key(toggle)], decode, edit) == Transition(s2, Failed(UnknownToolIndex(1)));
    assert [Key(down), Key(toggle)][1..] == [Key(toggle)];
    assert Run(s1, [Key(down), Key(toggle)], decode, edit) == Run(s2, [Key(toggle)], decode, edit);
    assert [Key(down), Key(down), Key(toggle)][1..] == [Key(down), Key(toggle)];
  }

  /** Nothing is handled after the exit flag is set. */
  lemma ExitStopsRun(s: AppState, events: seq<Event>, decode: KeyEvent -> Input, edit: TextEdit)
    requires s.exit
    ensures Run(s, events, decode, edit) == Step(s)
  {
  }

  /** A prompt typed and submitted, answered in two chunks: the transcript
      holds the prompt and the whole answer, and the session is idle again. */
  lemma SubmitAndAnswer(s: AppState, submit: KeyEvent, decode: KeyEvent -> Input, edit: TextEdit)
    requires s.zone == TextInput && s.popover.None? && !s.exit && s.lastAddedIndex.None?
    requires s.history == [] && s.draft == ["hello"]
    requires submit.kind == Press && decode(submit) == Submit
    ensures var r := Run(s, [Key(submit), LlmResponse(Chunk("Hi")), LlmResponse(Chunk(" there")),
                              LlmResponse(Finished)], decode, edit);
      r.outcome == Done &&
      r.state.history == [Chat(ChatData(User, "hello")), Chat(ChatData(Model, "Hi there"))] &&
      !r.state.generating && r.state.lastAddedIndex.None? && r.state.draft == [""] &&
      r.state.launched == s.launched + ["hello"]
  {
    var events := [Key(submit), LlmResponse(Chunk("Hi")), LlmResponse(Chunk(" there")), LlmResponse(Finished)];
    var s1 := Submitted(s);
    assert s1.history == [Chat(ChatData(User, "hello"))] by {
      assert PromptText(["hello"]) == "hello";
    }
    assert EventTransition(s, Key(submit), decode, edit) == Step(s1);
    assert Run(s, events, decode, edit) == Run(s1, events[1..], decode, edit);
    var s2 := WithChunk(s1, "Hi");
    assert s2.history == [Chat(ChatData(User, "hello")), Chat(ChatData(Model, "Hi"))];
    assert events[1..][1..] == events[2..];
    assert Run(s1, events[1..], decode, edit) == Run(s2, events[2..], decode, edit);
    var s3 := WithChunk(s2, " there");
    assert "Hi" + " there" == "Hi there";
    assert s3.history == [Chat(ChatData(User, "hello")), Chat(ChatData(Model, "Hi there"))];
    assert events[2..][1..] == events[3..];
    assert Run(s2, events[2..], decode, edit) == Run(s3, events[3..], decode, edit);
    assert events[3..][1..] == [];
    assert Run(s3, events[3..], decode, edit) == Step(GenerationReset(s3));
  }
}
