/** File uploads and path completion of the line-mode prompt (cli_handler/file_input/mod.rs).
    Reading the file, glob expansion and the directory test are parameters. */
module FileInput {
  import opened Wrappers
  import Str = Text
  import opened Provider

  const FileInputTrigger: string := "#file:"

  /** `std::path::MAIN_SEPARATOR` on Unix. */
  const MainSeparator: string := "/"

  /** The fixed text in front of the file contents. */
  function FramedHeader(path: string): string {
    "\nI have given you the contents of a file for reference.\nFile: #" + path + "\n```\n"
  }

  const FramedFooter: string := "\n```"

  /** The failure `chat_from_file` reports when the file cannot be read. */
  const ReadFailure: string := "Failed to read file contents."

  /** `chat_from_file`: `read` is what reading `path` gave. The contents are
      framed as a fenced block after a line naming the file, sent as the user. */
  function ChatFromFile(path: string, read: Result<string, string>): (r: Result<ChatData, string>)
    ensures read.Err? ==> r == Err(ReadFailure)
    ensures read.Ok? ==> r.Ok? && r.value.role == User
    ensures read.Ok? ==>
      r.value.text == "\nI have given you the contents of a file for reference.\nFile: #" + path +
        "\n```\n" + read.value + "\n```"
  {
    match read
    case Err(_) => Err(ReadFailure)
    case Ok(contents) => Ok(ChatData(User, FramedHeader(path) + contents + FramedFooter))
  }

  /** The framing loses nothing: the contents sit between the header and the footer. */
  lemma FramingRecoversContents(path: string, contents: string)
    ensures var text := ChatFromFile(path, Ok(contents)).value.text;
      var start := |FramedHeader(path)|;
      start + |FramedFooter| <= |text| && text[start..|text| - |FramedFooter|] == contents &&
      Str.StartsWith(text, FramedHeader(path))
    ensures forall other :: ChatFromFile(path, Ok(other)) == ChatFromFile(path, Ok(contents)) ==> other == contents
  {
    var text := FramedHeader(path) + contents + FramedFooter;
    assert text[..|FramedHeader(path)|] == FramedHeader(path);
    assert text[|FramedHeader(path)|..|text| - |FramedFooter|] == contents;
    forall other | ChatFromFile(path, Ok(other)) == ChatFromFile(path, Ok(contents))
      ensures other == contents
    {
      var t2 := FramedHeader(path) + other + FramedFooter;
      assert t2[|FramedHeader(path)|..|t2| - |FramedFooter|] == other;
    }
  }

  /** `Path::join` (`PathBuf::push`) on Unix: an absolute path replaces the
      base; otherwise a separator is inserted unless the base is empty or
      already ends with one. */
  function JoinPath(base: string, path: string): (r: string)
    ensures Str.StartsWith(path, MainSeparator) ==> r == path
    ensures !Str.StartsWith(path, MainSeparator) ==> Str.StartsWith(r, base) && |path| <= |r| && r[|r| - |path|..] == path
  {
    if Str.StartsWith(path, MainSeparator) then path
    else if base != [] && base[|base| - 1] != '/' then base + MainSeparator + path
    else base + path
  }

  /** The glob pattern for a trigger input: the typed path, relative to `cwd`, followed by `*`. */
  function GlobPattern(cwd: string, input: string): string {
    JoinPath(cwd, Str.TrimStartMatches(input, FileInputTrigger)) + "*"
  }

  /** The glob matches that are readable UTF-8 paths, in glob order; `None`
      stands for a match the two `filter_map`s drop. */
  function Present(matches: seq<Option<string>>): (paths: seq<string>)
    ensures |paths| <= |matches|
    ensures forall p :: p in paths <==> Some(p) in matches
    decreases |matches|
  {
    if matches == [] then []
    else (if matches[0].Some? then [matches[0].value] else []) + Present(matches[1..])
  }

  /** Dropping keeps order: the paths of `a + b` are those of `a`, then those of `b`. */
  lemma {:induction false} PresentAppend(a: seq<Option<string>>, b: seq<Option<string>>)
    ensures Present(a + b) == Present(a) + Present(b)
    decreases |a|
  {
    if a == [] {
      assert a + b == b;
    } else {
      assert (a + b)[0] == a[0] && (a + b)[1..] == a[1..] + b;
      PresentAppend(a[1..], b);
    }
  }

  /** The failure `get_suggestions` reports when the pattern is rejected. */
  const GlobFailure: string := "Failed to get glob completions."

  /** `get_suggestions`. `glob` maps a pattern to its matches or rejects it. */
  function GetSuggestions(cwd: string, input: string, glob: string -> Result<seq<Option<string>>, string>)
    : (r: Result<seq<string>, string>)
    ensures !Str.StartsWith(input, FileInputTrigger) ==> r == Ok([])
    ensures Str.StartsWith(input, FileInputTrigger) && glob(GlobPattern(cwd, input)).Err? ==> r == Err(GlobFailure)
    ensures r.Ok? ==> forall k :: 0 <= k < |r.value| ==> Str.StartsWith(r.value[k], FileInputTrigger)
    ensures Str.StartsWith(input, FileInputTrigger) && r.Ok? ==>
      var paths := Present(glob(GlobPattern(cwd, input)).value);
      |r.value| == |paths| &&
      forall k :: 0 <= k < |paths| ==>
        Str.StartsWith(r.value[k], FileInputTrigger) && r.value[k][|FileInputTrigger|..] == paths[k]
  {
    if !Str.StartsWith(input, FileInputTrigger) then Ok([])
    else
      match glob(GlobPattern(cwd, input))
      case Err(_) => Err(GlobFailure)
      case Ok(matches) =>
        var paths := Present(matches);
        Ok(seq(|paths|, k requires 0 <= k < |paths| => FileInputTrigger + paths[k]))
  }

  /** `get_completion`: the highlighted suggestion, with a separator appended
      when the path it names (the trigger stripped) is a directory. */
  function GetCompletion(suggestion: Option<string>, isDir: string -> bool): (r: Option<string>)
    ensures suggestion.None? <==> r.None?
    ensures suggestion.Some? ==> Str.StartsWith(r.value, suggestion.value)
    ensures suggestion.Some? ==>
      r.value == suggestion.value +
        (if isDir(Str.TrimStartMatches(suggestion.value, FileInputTrigger)) then MainSeparator else "")
  {
    match suggestion
    case None => None
    case Some(s) =>
      var trailing := if isDir(Str.TrimStartMatches(s, FileInputTrigger)) then MainSeparator else "";
      assert (s + trailing)[..|s|] == s;
      Some(s + trailing)
  }

  /** A suggestion built from a glob match completes to that match, with one
      separator more exactly when it is a directory. */
  lemma CompletionOfSuggestion(path: string, isDir: string -> bool)
    requires !Str.StartsWith(path, FileInputTrigger)
    ensures var r := GetCompletion(Some(FileInputTrigger + path), isDir);
      r == Some(FileInputTrigger + path + (if isDir(path) then "/" else ""))
  {
    var s := FileInputTrigger + path;
    assert Str.StartsWith(s, FileInputTrigger) by {
      assert s[..|FileInputTrigger|] == FileInputTrigger;
    }
    assert s[|FileInputTrigger|..] == path;
    assert Str.TrimStartMatches(s, FileInputTrigger) == Str.TrimStartMatches(path, FileInputTrigger);
  }
}
