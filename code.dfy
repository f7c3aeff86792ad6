/** `parse_code_response` (llm/code.rs): in quiet mode a reply that opens with
    a code fence is reduced to the lines that carry no fence marker. */
module CodeResponse {
  import Text

  const Fence: string := "```"

  /** The lines without a fence marker, in their original order. */
  function KeepLines(lines: seq<string>): (kept: seq<string>)
    ensures |kept| <= |lines|
    ensures forall k :: 0 <= k < |kept| ==> kept[k] in lines && !Text.Contains(kept[k], Fence)
    ensures forall k :: 0 <= k < |lines| && !Text.Contains(lines[k], Fence) ==> lines[k] in kept
    decreases |lines|
  {
    if lines == [] then []
    else (if Text.Contains(lines[0], Fence) then [] else [lines[0]]) + KeepLines(lines[1..])
  }

  /** `parse_code_response`. */
  function ParseCodeResponse(response: string): (r: string)
    ensures !Text.StartsWith(response, Fence) ==> r == response
  {
    if Text.StartsWith(response, Fence) then
      Text.Join(KeepLines(Text.Split(response, '\n')), "\n")
    else
      response
  }

  /** Filtering keeps order: the lines kept from `a + b` are those kept from `a`, then from `b`. */
  lemma {:induction false} KeepLinesAppend(a: seq<string>, b: seq<string>)
    ensures KeepLines(a + b) == KeepLines(a) + KeepLines(b)
    decreases |a|
  {
    if a == [] {
      assert a + b == b;
    } else {
      assert (a + b)[0] == a[0] && (a + b)[1..] == a[1..] + b;
      KeepLinesAppend(a[1..], b);
    }
  }

  /** A fenced reply comes out with no fence marker anywhere in it. */
  lemma FencedResultHasNoFence(response: string)
    requires Text.StartsWith(response, Fence)
    ensures !Text.Contains(ParseCodeResponse(response), Fence)
  {
    var kept := KeepLines(Text.Split(response, '\n'));
    Text.JoinAvoids(kept, '\n', Fence);
  }

  /** The lines of a fenced reply's result are exactly its fence-free input
      lines, in order; with none left the result is empty. So the result
      never has more lines than the reply. */
  lemma FencedResultLines(response: string)
    requires Text.StartsWith(response, Fence)
    ensures var kept := KeepLines(Text.Split(response, '\n'));
      (kept != [] ==> Text.Split(ParseCodeResponse(response), '\n') == kept) &&
      (kept == [] ==> ParseCodeResponse(response) == "")
    ensures |Text.Split(ParseCodeResponse(response), '\n')| <= |Text.Split(response, '\n')|
  {
    var parts := Text.Split(response, '\n');
    var kept := KeepLines(parts);
    if kept != [] {
      assert forall k :: 0 <= k < |kept| ==> '\n' !in kept[k];
      Text.SplitJoin(kept, '\n');
    } else {
      assert Text.Split("", '\n') == [""];
    }
  }

  /** Stripping twice is stripping once. */
  lemma ParseIdempotent(response: string)
    ensures ParseCodeResponse(ParseCodeResponse(response)) == ParseCodeResponse(response)
  {
    var r := ParseCodeResponse(response);
    if Text.StartsWith(response, Fence) {
      FencedResultHasNoFence(response);
      if Text.StartsWith(r, Fence) {
        assert Text.OccursAt(r, Fence, 0);
      }
    }
  }
}
