/** The height estimate the older chat view sizes its scroll view with
    (ratatui_app/mod.rs): greedy word wrapping counted per line, plus the
    borders of each bubble. */
module Layout {
  import opened Wrappers
  import Text
  import opened Provider

  /** `word.len() as u16`: the UTF-8 length, truncated to 16 bits. */
  function WordLen(word: string): (n: nat)
    ensures n < 0x1_0000
    ensures Text.Utf8Len(word) < 0x1_0000 ==> n == Text.Utf8Len(word)
  {
    Text.Utf8Len(word) % 0x1_0000
  }

  /** The rows a line's remaining `words` need when the current row already
      holds `current` columns: a word that would push the row past `width`
      opens a new row; the row in progress counts once at the end. */
  function Rows(words: seq<string>, current: nat, width: nat): nat
    decreases |words|
  {
    if words == [] then 1
    else
      var wl := WordLen(words[0]);
      if current + wl + 1 > width then 1 + Rows(words[1..], wl, width)
      else Rows(words[1..], current + wl + 1, width)
  }

  /** The rows one text line takes. */
  function LineRows(line: string, width: nat): nat {
    Rows(Text.Words(line), 0, width)
  }

  /** The rows of `lines`, summed from the last line back. */
  function SumRows(lines: seq<string>, width: nat): nat
    decreases |lines|
  {
    if lines == [] then 0 else SumRows(lines[..|lines| - 1], width) + LineRows(lines[|lines| - 1], width)
  }

  /** The value `count_wrapped_lines(text, width)` computes. */
  function WrappedLines(text: string, width: nat): nat {
    SumRows(Text.Lines(text), width)
  }

  /** `count_wrapped_lines`: for every line, walk its words keeping the length
      of the row in progress, count a row each time a word does not fit, and
      one more for the row in progress when the line ends. */
  method CountWrappedLines(text: string, width: nat) returns (lineCount: nat)
    ensures lineCount == WrappedLines(text, width)
  {
    var lines := Text.Lines(text);
    lineCount := 0;
    for i := 0 to |lines|
      invariant lineCount == SumRows(lines[..i], width)
    {
      var words := Text.Words(lines[i]);
      var current: nat := 0;
      ghost var before := lineCount;
      for j := 0 to |words|
        invariant before + Rows(words, 0, width) == lineCount + Rows(words[j..], current, width)
      {
        assert words[j..][0] == words[j] && words[j..][1..] == words[j + 1..];
        var wordLen := WordLen(words[j]);
        if current + wordLen + 1 > width {
          lineCount := lineCount + 1;
          current := wordLen;
        } else {
          current := current + wordLen + 1;
        }
      }
      lineCount := lineCount + 1;
      assert lines[..i + 1][..i] == lines[..i];
    }
    assert lines[..|lines|] == lines;
  }

  /** A line of n words takes at least one row and at most n + 1. */
  lemma {:induction false} RowsBounds(words: seq<string>, current: nat, width: nat)
    ensures 1 <= Rows(words, current, width) <= 1 + |words|
    decreases |words|
  {
    if words != [] {
      var wl := WordLen(words[0]);
      if current + wl + 1 > width {
        RowsBounds(words[1..], wl, width);
      } else {
        RowsBounds(words[1..], current + wl + 1, width);
      }
    }
  }

  /** With no width every word opens a row of its own, after the initial one. */
  lemma {:induction false} RowsAtWidthZero(words: seq<string>, current: nat)
    ensures Rows(words, current, 0) == 1 + |words|
    decreases |words|
  {
    if words != [] {
      RowsAtWidthZero(words[1..], WordLen(words[0]));
    }
  }

  /** The columns the words take when each is followed by one space. */
  function Span(words: seq<string>): nat
    decreases |words|
  {
    if words == [] then 0 else WordLen(words[0]) + 1 + Span(words[1..])
  }

  /** Words that fit in the row in progress, spaces included, stay in one row. */
  lemma {:induction false} RowsWhenFitting(words: seq<string>, current: nat, width: nat)
    requires current + Span(words) <= width
    ensures Rows(words, current, width) == 1
    decreases |words|
  {
    if words != [] {
      RowsWhenFitting(words[1..], current + WordLen(words[0]) + 1, width);
    }
  }

  /** The number of words on each of `lines`, summed from the last line back. */
  function WordCount(lines: seq<string>): nat
    decreases |lines|
  {
    if lines == [] then 0 else WordCount(lines[..|lines| - 1]) + |Text.Words(lines[|lines| - 1])|
  }

  /** Every line takes at least one row, and every word adds at most one more. */
  lemma {:induction false} SumRowsBounds(lines: seq<string>, width: nat)
    ensures |lines| <= SumRows(lines, width) <= |lines| + WordCount(lines)
    decreases |lines|
  {
    if lines != [] {
      SumRowsBounds(lines[..|lines| - 1], width);
      RowsBounds(Text.Words(lines[|lines| - 1]), 0, width);
    }
  }

  /** Empty text takes no rows; any text takes between one row per line and one more per word. */
  lemma WrappedLinesBounds(text: string, width: nat)
    ensures WrappedLines("", width) == 0
    ensures |Text.Lines(text)| <= WrappedLines(text, width) <= |Text.Lines(text)| + WordCount(Text.Lines(text))
  {
    SumRowsBounds(Text.Lines(text), width);
  }

  /** The height of one bubble: a file upload is three rows, a chat its wrapped
      text plus the two border rows. */
  function ItemHeight(item: ChatHistoryItem, width: nat): (h: nat)
    ensures item.FileUpload? ==> h == 3
    ensures item.Chat? ==> h == WrappedLines(item.chat.text, width) + 2
  {
    match item
    case FileUpload(_) => 3
    case Chat(chat) => WrappedLines(chat.text, width) + 2
  }

  /** The vertical constraints `render_widgets_into_scrollview` lays the bubbles out with. */
  function LayoutConstraints(history: seq<ChatHistoryItem>, width: nat): (hs: seq<nat>)
    ensures |hs| == |history|
    ensures forall i :: 0 <= i < |history| ==> hs[i] == ItemHeight(history[i], width)
  {
    seq(|history|, i requires 0 <= i < |history| => ItemHeight(history[i], width))
  }

  /** `Iterator::reduce` with `+`: nothing for no items, else the left fold from the first. */
  function ReduceSum(xs: seq<nat>): Option<nat> {
    if xs == [] then None else Some(FoldSum(xs[0], xs[1..]))
  }

  function FoldSum(acc: nat, xs: seq<nat>): nat
    decreases |xs|
  {
    if xs == [] then acc else FoldSum(acc + xs[0], xs[1..])
  }

  /** `count_total_height`: the bubble heights reduced by `+`, zero for an empty history. */
  function TotalHeight(history: seq<ChatHistoryItem>, width: nat): nat {
    match ReduceSum(LayoutConstraints(history, width))
    case None => 0
    case Some(total) => total
  }

  function Sum(xs: seq<nat>): nat
    decreases |xs|
  {
    if xs == [] then 0 else xs[0] + Sum(xs[1..])
  }

  lemma {:induction false} FoldSumIsSum(acc: nat, xs: seq<nat>)
    ensures FoldSum(acc, xs) == acc + Sum(xs)
    decreases |xs|
  {
    if xs != [] {
      FoldSumIsSum(acc + xs[0], xs[1..]);
    }
  }

  lemma {:induction false} SumAppend(xs: seq<nat>, x: nat)
    ensures Sum(xs + [x]) == Sum(xs) + x
    decreases |xs|
  {
    if xs == [] {
      assert xs + [x] == [x];
    } else {
      assert (xs + [x])[1..] == xs[1..] + [x];
      SumAppend(xs[1..], x);
    }
  }

  /** The scroll view is exactly as tall as the bubbles laid out in it. */
  lemma TotalHeightIsLayoutSum(history: seq<ChatHistoryItem>, width: nat)
    ensures TotalHeight(history, width) == Sum(LayoutConstraints(history, width))
  {
    var hs := LayoutConstraints(history, width);
    if hs != [] {
      FoldSumIsSum(hs[0], hs[1..]);
    }
  }

  /** A new history entry adds exactly its own height. */
  lemma TotalHeightAppend(history: seq<ChatHistoryItem>, item: ChatHistoryItem, width: nat)
    ensures TotalHeight(history + [item], width) == TotalHeight(history, width) + ItemHeight(item, width)
  {
    assert LayoutConstraints(history + [item], width) ==
      LayoutConstraints(history, width) + [ItemHeight(item, width)];
    TotalHeightIsLayoutSum(history + [item], width);
    TotalHeightIsLayoutSum(history, width);
    SumAppend(LayoutConstraints(history, width), ItemHeight(item, width));
  }

  lemma {:induction false} SumAtLeast(xs: seq<nat>, low: nat)
    requires forall i :: 0 <= i < |xs| ==> xs[i] >= low
    ensures Sum(xs) >= low * |xs|
    decreases |xs|
  {
    if xs != [] {
      SumAtLeast(xs[1..], low);
    }
  }

  /** Every bubble takes at least its two border rows. */
  lemma TotalHeightAtLeastBorders(history: seq<ChatHistoryItem>, width: nat)
    ensures TotalHeight(history, width) >= 2 * |history|
  {
    TotalHeightIsLayoutSum(history, width);
    SumAtLeast(LayoutConstraints(history, width), 2);
  }
}
