/** What a line typed at the line-mode prompt means (`CliHandler::get_message`,
    cli_handler/llm/mod.rs). The prompt itself is a parameter. */
module ChatInput {
  import opened Wrappers
  import Str = Text
  import opened CliError
  import FileInput

  datatype ChatAction = AddFile(path: string) | Text(text: string) | Clear | End

  /** The classification `get_message` applies to the typed line: the file
      trigger anywhere wins, then "/clear" up to surrounding whitespace, then
      the empty line ends the chat; anything else is sent as it was typed. */
  function ClassifyResponse(response: string): (action: ChatAction)
    ensures action.AddFile? <==> Str.Contains(response, FileInput.FileInputTrigger)
    ensures action.AddFile? ==>
      action.path == Str.Trim(Str.TrimStartMatches(response, FileInput.FileInputTrigger))
    ensures action == Clear <==>
      !Str.Contains(response, FileInput.FileInputTrigger) && Str.Trim(response) == "/clear"
    ensures action == End <==> response == ""
    ensures action.Text? <==>
      !Str.Contains(response, FileInput.FileInputTrigger) && Str.Trim(response) != "/clear" && response != ""
    ensures action.Text? ==> action.text == response
  {
    if Str.Contains(response, FileInput.FileInputTrigger) then
      AddFile(Str.Trim(Str.TrimStartMatches(response, FileInput.FileInputTrigger)))
    else if Str.Trim(response) == "/clear" then Clear
    else if response == "" then End
    else Text(response)
  }

  /** `get_message`: `prompted` is what the prompt returned. */
  function GetMessage(prompted: Result<string, InquireError>): (r: Result<ChatAction, Error>)
    ensures prompted.Ok? <==> r.Ok?
    ensures prompted.Ok? ==> r.value == ClassifyResponse(prompted.value)
    ensures prompted.Err? ==> r.error == MapInquireError(prompted.error)
  {
    match prompted
    case Ok(response) => Ok(ClassifyResponse(response))
    case Err(e) => Err(MapInquireError(e))
  }

  lemma {:induction false} TrimStartOfBlank(s: string)
    requires Blank(s)
    ensures Str.TrimStart(s) == ""
    decreases |s|
  {
    if s != [] {
      TrimStartOfBlank(s[1..]);
    }
  }

  /** A line of only whitespace is not the end of the chat: it is sent as text. */
  lemma BlankLineIsText(response: string)
    requires response != [] && Blank(response)
    ensures ClassifyResponse(response) == Text(response)
  {
    TrimStartOfBlank(response);
    BlankHasNoHash(response);
    NoHashNoTrigger(response);
  }

  /** A line that opens with the trigger uploads the path that follows it, trimmed. */
  lemma LeadingTriggerUploads(path: string)
    requires !Str.StartsWith(path, FileInput.FileInputTrigger)
    ensures ClassifyResponse(FileInput.FileInputTrigger + path) == AddFile(Str.Trim(path))
  {
    var response := FileInput.FileInputTrigger + path;
    assert response[..6] == FileInput.FileInputTrigger;
    assert Str.OccursAt(response, FileInput.FileInputTrigger, 0);
    assert response[6..] == path;
    assert Str.TrimStartMatches(response, FileInput.FileInputTrigger) == path;
  }

  /** The trigger anywhere else in the line still uploads, but only a leading
      trigger is stripped: the path is the whole line, trimmed, text before
      the trigger included. */
  lemma EmbeddedTriggerKeepsText(response: string)
    requires Str.Contains(response, FileInput.FileInputTrigger)
    requires !Str.StartsWith(response, FileInput.FileInputTrigger)
    ensures ClassifyResponse(response) == AddFile(Str.Trim(response))
  {
  }

  lemma {:induction false} TrimStartSkipsBlank(blank: string, s: string)
    requires Blank(blank)
    requires s == [] || !Str.IsWhitespace(s[0])
    ensures Str.TrimStart(blank + s) == s
    decreases |blank|
  {
    if blank == [] {
      assert blank + s == s;
    } else {
      assert (blank + s)[1..] == blank[1..] + s;
      TrimStartSkipsBlank(blank[1..], s);
    }
  }

  lemma {:induction false} TrimEndSkipsBlank(s: string, blank: string)
    requires Blank(blank)
    requires s == [] || !Str.IsWhitespace(s[|s| - 1])
    ensures Str.TrimEnd(s + blank) == s
    decreases |blank|
  {
    if blank == [] {
      assert s + blank == s;
    } else {
      var shorter := blank[..|blank| - 1];
      assert (s + blank)[..|s + blank| - 1] == s + shorter;
      TrimEndSkipsBlank(s, shorter);
    }
  }

  /** A line without '#' cannot hold the file trigger. */
  lemma NoHashNoTrigger(s: string)
    requires '#' !in s
    ensures !Str.Contains(s, FileInput.FileInputTrigger)
  {
    forall i | 0 <= i <= |s| ensures !Str.OccursAt(s, FileInput.FileInputTrigger, i) {
      if i + 6 <= |s| {
        assert s[i..i + 6][0] == s[i];
      }
    }
  }

  predicate Blank(s: string) {
    forall k :: 0 <= k < |s| ==> Str.IsWhitespace(s[k])
  }

  lemma BlankHasNoHash(s: string)
    requires Blank(s)
    ensures '#' !in s
  {
    forall k | 0 <= k < |s| ensures s[k] != '#' {
      assert Str.IsWhitespace(s[k]);
    }
  }

  /** Trimming removes exactly the blank padding around a core that starts and ends with a visible char. */
  lemma TrimOfPadded(before: string, core: string, after: string)
    requires Blank(before) && Blank(after)
    requires core != [] && !Str.IsWhitespace(core[0]) && !Str.IsWhitespace(core[|core| - 1])
    ensures Str.Trim(before + core + after) == core
  {
    assert before + core + after == before + (core + after);
    TrimStartSkipsBlank(before, core + after);
    TrimEndSkipsBlank(core, after);
  }

  /** "/clear" clears with any whitespace around it. */
  lemma ClearToleratesWhitespace(before: string, after: string)
    requires Blank(before) && Blank(after)
    ensures ClassifyResponse(before + "/clear" + after) == Clear
  {
    var core := "/clear";
    TrimOfPadded(before, core, after);
    BlankHasNoHash(before);
    BlankHasNoHash(after);
    assert '#' !in core;
    NoHashNoTrigger(before + core + after);
  }
}
