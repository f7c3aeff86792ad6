/** The state both revisions of the chat session share, and the steps both
    revisions take in the same way (ratatui_app/mod.rs and state_handling.rs). */
module SessionState {
  import opened Wrappers
  import opened Keys
  import KeyInput
  import opened Provider
  import Text

  datatype Popover = LlmToolList

  datatype WindowDirection = Up | Down

  /** What the text area library does to its lines on a key; not modelled. */
  type TextEdit = (seq<string>, KeyEvent) -> seq<string>

  /** The lines of a fresh `TextArea` (the library starts with one empty line). */
  const EmptyDraft: seq<string> := [""]

  const USIZE_MAX: nat := 0xFFFF_FFFF_FFFF_FFFF
  const U16_MAX: nat := 0xFFFF

  /** One record for the fields of `App` and the provider state it drives:
      the focused zone, the open popover, whether a reply is streaming, the
      history index receiving streamed text, the exit flag, the draft lines,
      the provider's history and search flag, the popover list's selection
      (`ListState`), the chat view's scroll offset (`ScrollViewState`), and
      the prompts of the stream tasks started so far. */
  datatype AppState = AppState(
    zone: KeyInput.SelectedZone,
    popover: Option<Popover>,
    generating: bool,
    lastAddedIndex: Option<nat>,
    exit: bool,
    draft: seq<string>,
    history: seq<ChatHistoryItem>,
    search: bool,
    toolSelection: Option<nat>,
    scroll: nat,
    launched: seq<string>)

  /** The Chunk rule: the first chunk adds a Model chat and remembers where;
      each later chunk is appended to that entry. */
  function WithChunk(s: AppState, chunk: string): AppState {
    match s.lastAddedIndex
    case Some(i) => s.(history := AppendedAt(s.history, i, chunk))
    case None => s.(history := s.history + [Chat(ModelChat(chunk))], lastAddedIndex := Some(|s.history|))
  }

  /** The end of a generation: not generating, no entry receiving text. */
  function GenerationReset(s: AppState): AppState {
    s.(generating := false, lastAddedIndex := None)
  }

  /** The prompt `submit_prompt` sends: the draft lines joined by newlines. */
  function PromptText(draft: seq<string>): string {
    Text.Join(draft, "\n")
  }

  /** `submit_prompt`: a User chat with the prompt is added, the draft is
      cleared, generation starts, and a stream task is started for the prompt. */
  function Submitted(s: AppState): AppState {
    var prompt := PromptText(s.draft);
    s.(history := s.history + [Chat(UserChat(prompt))], draft := EmptyDraft, generating := true,
       launched := s.launched + [prompt])
  }

  /** `change_window`: either direction moves the focus to the other zone. */
  function ZoneAfter(direction: WindowDirection, zone: KeyInput.SelectedZone): (r: KeyInput.SelectedZone)
    ensures r != zone
  {
    match direction
    case Up => (match zone case ChatHistory => KeyInput.TextInput case TextInput => KeyInput.ChatHistory)
    case Down => (match zone case ChatHistory => KeyInput.TextInput case TextInput => KeyInput.ChatHistory)
  }

  /** `ScrollViewState::scroll_up` / `scroll_down` on the vertical offset (saturating u16). */
  function Scrolled(direction: WindowDirection, offset: nat): nat {
    match direction
    case Up => if offset == 0 then 0 else offset - 1
    case Down => if offset < U16_MAX then offset + 1 else offset
  }

  /** `ListState::select_next`: from nothing to the first item, else one further (saturating). */
  function SelectedNext(selection: Option<nat>): Option<nat> {
    match selection
    case None => Some(0)
    case Some(i) => Some(if i < USIZE_MAX then i + 1 else i)
  }

  /** `ListState::select_previous`: from nothing to the last possible index, else one back (saturating). */
  function SelectedPrevious(selection: Option<nat>): Option<nat> {
    match selection
    case None => Some(USIZE_MAX)
    case Some(i) => Some(if i == 0 then 0 else i - 1)
  }

  /** The entry receiving streamed text exists and is a Model chat. */
  predicate StreamTargetValid(s: AppState) {
    s.lastAddedIndex.Some? ==>
      s.lastAddedIndex.value < |s.history| && s.history[s.lastAddedIndex.value].Chat? &&
      s.history[s.lastAddedIndex.value].chat.role == Model
  }

  /** The Chunk rule in full: with no target a Model chat holding exactly the
      chunk is appended and becomes the target; with a valid target the chunk
      is appended to its text, the target stays, and no other entry changes. */
  lemma ChunkRule(s: AppState, chunk: string)
    requires StreamTargetValid(s)
    ensures s.lastAddedIndex.None? ==>
      WithChunk(s, chunk) ==
        s.(history := s.history + [Chat(ChatData(Model, chunk))], lastAddedIndex := Some(|s.history|))
    ensures s.lastAddedIndex.Some? ==>
      var i := s.lastAddedIndex.value;
      var r := WithChunk(s, chunk);
      r.lastAddedIndex == s.lastAddedIndex && |r.history| == |s.history| &&
      r.history[i] == Chat(ChatData(Model, s.history[i].chat.text + chunk)) &&
      (forall k :: 0 <= k < |r.history| && k != i ==> r.history[k] == s.history[k]) &&
      r == s.(history := r.history)
    ensures StreamTargetValid(WithChunk(s, chunk))
  {
  }

  /** `submit_prompt` in full. */
  lemma SubmitRule(s: AppState)
    ensures Submitted(s).history == s.history + [Chat(ChatData(User, Text.Join(s.draft, "\n")))]
    ensures Submitted(s).draft == [""] && Submitted(s).generating
    ensures Submitted(s).launched == s.launched + [Text.Join(s.draft, "\n")]
    ensures Submitted(s).(history := s.history, draft := s.draft, generating := s.generating,
                          launched := s.launched) == s
    ensures StreamTargetValid(s) ==> StreamTargetValid(Submitted(s))
  {
  }

  /** Both directions swap the zone, so two switches in any directions restore it. */
  lemma ZoneSwitchTwice(d1: WindowDirection, d2: WindowDirection, zone: KeyInput.SelectedZone)
    ensures ZoneAfter(d2, ZoneAfter(d1, zone)) == zone
    ensures ZoneAfter(d1, zone) == ZoneAfter(d2, zone)
  {
  }

  /** Chunks folded in delivery order. */
  function WithChunks(s: AppState, chunks: seq<string>): AppState
    decreases |chunks|
  {
    if chunks == [] then s else WithChunks(WithChunk(s, chunks[0]), chunks[1..])
  }

  function Concat(chunks: seq<string>): string
    decreases |chunks|
  {
    if chunks == [] then "" else chunks[0] + Concat(chunks[1..])
  }

  /** Chunks delivered to an existing target chat all land, in order, at the end of its text. */
  lemma {:induction false} ChunksExtendTarget(s: AppState, chunks: seq<string>)
    requires s.lastAddedIndex.Some? && s.lastAddedIndex.value < |s.history|
    requires s.history[s.lastAddedIndex.value].Chat?
    ensures var i := s.lastAddedIndex.value;
      WithChunks(s, chunks) ==
        s.(history := s.history[i := Chat(s.history[i].chat.(text := s.history[i].chat.text + Concat(chunks)))])
    decreases |chunks|
  {
    var i := s.lastAddedIndex.value;
    var entry := s.history[i].chat;
    if chunks == [] {
      assert entry.(text := entry.text + "") == entry;
      assert s.history[i := Chat(entry)] == s.history;
    } else {
      var s1 := WithChunk(s, chunks[0]);
      assert s1 == s.(history := s.history[i := Chat(entry.(text := entry.text + chunks[0]))]);
      ChunksExtendTarget(s1, chunks[1..]);
      assert entry.text + chunks[0] + Concat(chunks[1..]) == entry.text + Concat(chunks);
      assert s1.history[i := Chat(entry.(text := entry.text + chunks[0] + Concat(chunks[1..])))] ==
        s.history[i := Chat(entry.(text := entry.text + Concat(chunks)))];
    }
  }

  /** Chunks that start with no target build exactly one new Model entry whose
      text is their concatenation, and it becomes the target. */
  lemma {:induction false} ChunksBuildOneEntry(s: AppState, chunks: seq<string>)
    requires s.lastAddedIndex.None? && chunks != []
    ensures WithChunks(s, chunks) ==
      s.(history := s.history + [Chat(ChatData(Model, Concat(chunks)))], lastAddedIndex := Some(|s.history|))
  {
    var s1 := WithChunk(s, chunks[0]);
    ChunksExtendTarget(s1, chunks[1..]);
    assert chunks[0] + Concat(chunks[1..]) == Concat(chunks);
    assert s1.history[|s.history| := Chat(ChatData(Model, chunks[0] + Concat(chunks[1..])))] ==
      s.history + [Chat(ChatData(Model, Concat(chunks)))];
  }
}
