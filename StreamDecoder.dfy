/**
 * The pure part of `handleSubmit` (src/hooks/useChat.ts:118-145): how one
 * line of the streamed response is classified, and what applying a line, a
 * chunk, or a sequence of chunks does to the message list, the assistant
 * accumulator and the navigation log.
 *
 * The decoder works chunk by chunk: each chunk is split on line feeds on its
 * own, with no buffer carried to the next chunk. `JSON.parse` is a parameter:
 * it yields the `type` and `content` fields of a line, or `None` when it throws.
 */
module StreamDecoder {
  import opened Wrappers
  import opened Api
  import Text

  /** The two fields of a parsed stream line the client reads. */
  datatype Wire = Wire(kind: string, content: string)

  /** `JSON.parse`, reduced to the fields the client reads; `None` when it throws. */
  type Parser = string -> Option<Wire>

  /** What one line makes the client do. */
  datatype LineAction =
    | Blank                     // `line.trim() === ""`: skipped before parsing
    | Malformed                 // `JSON.parse` threw: logged and skipped
    | Ignored                   // parsed, with a `type` other than "text" or "chat_id"
    | AppendText(text: string)  // `type === "text"`
    | NavigateTo(chatId: string) // `type === "chat_id"`

  /** What the line callback does with a line, with the blank test stated as
      "every character is whitespace"; `ClassifyAsSource` restates it in the
      source's own terms. */
  function Classify(parse: Parser, line: string): (a: LineAction)
    ensures a.Blank? <==> Text.IsBlank(line)
    ensures a.Malformed? <==> !Text.IsBlank(line) && parse(line).None?
    ensures a.AppendText? <==> !Text.IsBlank(line) && parse(line).Some? && parse(line).value.kind == "text"
    ensures a.NavigateTo? <==> !Text.IsBlank(line) && parse(line).Some? && parse(line).value.kind == "chat_id"
    ensures a.AppendText? ==> a.text == parse(line).value.content
    ensures a.NavigateTo? ==> a.chatId == parse(line).value.content
  {
    if Text.IsBlank(line) then Blank
    else
      match parse(line)
      case None => Malformed
      case Some(w) =>
        if w.kind == "text" then AppendText(w.content)
        else if w.kind == "chat_id" then NavigateTo(w.content)
        else Ignored
  }

  /** The line callback's decisions, stated as the source makes them: a line
      whose `trim()` is empty is skipped; otherwise a line `JSON.parse` rejects is
      dropped, a `text` line appends its `content`, a `chat_id` line navigates to
      its `content`, and a line of any other `type` is ignored. */
  lemma ClassifyAsSource(parse: Parser, line: string)
    ensures Text.Trim(line) == [] ==> Classify(parse, line) == Blank
    ensures Text.Trim(line) != [] && parse(line).None? ==> Classify(parse, line) == Malformed
    ensures Text.Trim(line) != [] && parse(line).Some? && parse(line).value.kind == "text" ==>
              Classify(parse, line) == AppendText(parse(line).value.content)
    ensures Text.Trim(line) != [] && parse(line).Some? && parse(line).value.kind == "chat_id" ==>
              Classify(parse, line) == NavigateTo(parse(line).value.content)
    ensures (&& Text.Trim(line) != [] && parse(line).Some?
             && parse(line).value.kind != "text" && parse(line).value.kind != "chat_id")
            ==> Classify(parse, line) == Ignored
  {
  }

  /** The route `navigate` is called with for a `chat_id` line. */
  function ChatRoute(chatId: string): string {
    "/chat/" + chatId
  }

  function UserMessage(content: string): Message {
    Message(UserRole, content, None)
  }

  function AssistantMessage(content: string): Message {
    Message(AssistantRole, content, None)
  }

  /** `array.slice(0, -1)`: all but the last element; the empty array stays empty. */
  function DropLast<T>(s: seq<T>): (r: seq<T>)
    ensures s != [] ==> r + [s[|s| - 1]] == s
    ensures s == [] ==> r == []
  {
    if s == [] then [] else s[..|s| - 1]
  }

  /** The state one stream updates: the message list, the `assistantMessage`
      accumulator, and the routes passed to `navigate` so far. */
  datatype Progress = Progress(messages: seq<Message>, assistant: string, navigations: seq<string>)

  /** One line's effect. A text line extends the accumulator and replaces the last
      message by an assistant message holding the whole accumulator. */
  function Step(p: Progress, action: LineAction): Progress {
    match action
    case AppendText(t) =>
      var acc := p.assistant + t;
      Progress(DropLast(p.messages) + [AssistantMessage(acc)], acc, p.navigations)
    case NavigateTo(id) => p.(navigations := p.navigations + [ChatRoute(id)])
    case _ => p
  }

  /** The lines of one chunk applied in order (`lines.forEach`). */
  function ApplyLines(parse: Parser, p: Progress, lines: seq<string>): Progress {
    if lines == [] then p
    else Step(ApplyLines(parse, p, lines[..|lines| - 1]), Classify(parse, lines[|lines| - 1]))
  }

  /** The lines the reader loop visits: each chunk split on its own, in order. */
  function ChunkLines(chunks: seq<string>): seq<string> {
    if chunks == [] then []
    else ChunkLines(chunks[..|chunks| - 1]) + Text.Split(chunks[|chunks| - 1])
  }

  /** The chunks applied in order, each one split on line feeds. */
  function ApplyChunks(parse: Parser, p: Progress, chunks: seq<string>): Progress {
    if chunks == [] then p
    else ApplyLines(parse, ApplyChunks(parse, p, chunks[..|chunks| - 1]), Text.Split(chunks[|chunks| - 1]))
  }

  // Reference definitions: what a sequence of lines contributes, read off each
  // line on its own.

  /** The `content` of every text line, concatenated in arrival order. */
  function TextOf(parse: Parser, lines: seq<string>): string {
    if lines == [] then []
    else
      var last := Classify(parse, lines[|lines| - 1]);
      TextOf(parse, lines[..|lines| - 1]) + (if last.AppendText? then last.text else [])
  }

  /** One route per `chat_id` line, repeats included, in arrival order. */
  function RoutesOf(parse: Parser, lines: seq<string>): seq<string> {
    if lines == [] then []
    else
      var last := Classify(parse, lines[|lines| - 1]);
      RoutesOf(parse, lines[..|lines| - 1]) + (if last.NavigateTo? then [ChatRoute(last.chatId)] else [])
  }

  predicate HasText(parse: Parser, lines: seq<string>) {
    exists i :: 0 <= i < |lines| && Classify(parse, lines[i]).AppendText?
  }

  /** The effect of a sequence of lines: the accumulator grows by their text in
      order, one navigation is logged per `chat_id` line, and the messages are
      untouched unless some text line came, in which case the last message has
      been replaced by the assistant message holding the whole accumulator. */
  lemma {:induction false} ApplyLinesEffect(parse: Parser, p: Progress, lines: seq<string>)
    ensures var r := ApplyLines(parse, p, lines);
            && r.assistant == p.assistant + TextOf(parse, lines)
            && r.navigations == p.navigations + RoutesOf(parse, lines)
            && r.messages == if HasText(parse, lines) then DropLast(p.messages) + [AssistantMessage(r.assistant)]
                             else p.messages
  {
    if lines == [] {
      assert p.assistant + [] == p.assistant;
      assert p.navigations + [] == p.navigations;
    } else {
      var init, last := lines[..|lines| - 1], lines[|lines| - 1];
      ApplyLinesEffect(parse, p, init);
      var q := ApplyLines(parse, p, init);
      var a := Classify(parse, last);
      assert HasText(parse, lines) <==> HasText(parse, init) || a.AppendText? by {
        if HasText(parse, init) {
          var i :| 0 <= i < |init| && Classify(parse, init[i]).AppendText?;
          assert lines[i] == init[i];
        }
        if HasText(parse, lines) && !a.AppendText? {
          var i :| 0 <= i < |lines| && Classify(parse, lines[i]).AppendText?;
          assert i < |init| && init[i] == lines[i];
        }
      }
      if a.AppendText? {
        assert q.assistant + a.text == p.assistant + (TextOf(parse, init) + a.text);
        if HasText(parse, init) {
          assert DropLast(q.messages) == DropLast(p.messages);
        }
      } else {
        assert TextOf(parse, lines) == TextOf(parse, init) + [];
      }
      if a.NavigateTo? {
        assert q.navigations + [ChatRoute(a.chatId)] == p.navigations + (RoutesOf(parse, init) + [ChatRoute(a.chatId)]);
      } else {
        assert RoutesOf(parse, lines) == RoutesOf(parse, init) + [];
      }
    }
  }

  /** Applying `a + b` is applying `a`, then `b`. */
  lemma {:induction false} ApplyLinesAppend(parse: Parser, p: Progress, a: seq<string>, b: seq<string>)
    ensures ApplyLines(parse, p, a + b) == ApplyLines(parse, ApplyLines(parse, p, a), b)
  {
    if b == [] {
      assert a + b == a;
    } else {
      assert (a + b)[..|a + b| - 1] == a + b[..|b| - 1];
      assert (a + b)[|a + b| - 1] == b[|b| - 1];
      ApplyLinesAppend(parse, p, a, b[..|b| - 1]);
    }
  }

  /** Chunks apply in order: reading `a` and then `b` is applying `a`, then `b`.
      So when a read fails after some chunks, the effect of those chunks stays. */
  lemma {:induction false} ApplyChunksAppend(parse: Parser, p: Progress, a: seq<string>, b: seq<string>)
    ensures ApplyChunks(parse, p, a + b) == ApplyChunks(parse, ApplyChunks(parse, p, a), b)
  {
    if b == [] {
      assert a + b == a;
    } else {
      assert (a + b)[..|a + b| - 1] == a + b[..|b| - 1];
      assert (a + b)[|a + b| - 1] == b[|b| - 1];
      ApplyChunksAppend(parse, p, a, b[..|b| - 1]);
    }
  }

  /** Decoding is per chunk: the chunks have the effect of the lines obtained by
      splitting each chunk on its own, concatenated in order. */
  lemma {:induction false} ChunksAreLines(parse: Parser, p: Progress, chunks: seq<string>)
    ensures ApplyChunks(parse, p, chunks) == ApplyLines(parse, p, ChunkLines(chunks))
  {
    if chunks != [] {
      var init := chunks[..|chunks| - 1];
      ChunksAreLines(parse, p, init);
      ApplyLinesAppend(parse, p, ChunkLines(init), Text.Split(chunks[|chunks| - 1]));
    }
  }

  /** Applying one more line is one more `Step`. */
  lemma ApplyOne(parse: Parser, p: Progress, lines: seq<string>, line: string)
    ensures ApplyLines(parse, p, lines + [line]) == Step(ApplyLines(parse, p, lines), Classify(parse, line))
  {
    assert (lines + [line])[..|lines|] == lines;
  }

  /** Two chunks are applied as the lines of the first, then those of the second. */
  lemma ApplyTwoChunks(parse: Parser, p: Progress, a: string, b: string)
    ensures ApplyChunks(parse, p, [a, b]) == ApplyLines(parse, p, Text.Split(a) + Text.Split(b))
  {
    assert [a, b][..1] == [a];
    assert [a][..0] == [];
    assert ApplyChunks(parse, p, [a]) == ApplyLines(parse, p, Text.Split(a));
    ApplyLinesAppend(parse, p, Text.Split(a), Text.Split(b));
  }

  /** A line split across two chunks is decoded as two separate fragments: two
      chunks give the lines of each chunk, while the same text in one chunk
      would give the fragments fused into one line. */
  lemma ChunkSeam(parse: Parser, p: Progress, a: string, b: string)
    ensures ApplyChunks(parse, p, [a, b]) == ApplyLines(parse, p, Text.Split(a) + Text.Split(b))
    ensures ApplyChunks(parse, p, [a + b]) == ApplyLines(parse, p, Text.Seam(Text.Split(a), Text.Split(b)))
  {
    ApplyTwoChunks(parse, p, a, b);
    assert [a + b][..0] == [];
    Text.SplitConcat(a, b);
  }

  /** The concrete shape of that loss: when a chunk ends inside a line `x + y`, the
      parser is handed `x` and `y` separately and never the whole line. */
  lemma LineCutAcrossChunks(parse: Parser, p: Progress, before: string, x: string, y: string, after: string)
    requires '\n' !in before && '\n' !in x && '\n' !in y && '\n' !in after
    ensures ApplyChunks(parse, p, [before + "\n" + x, y + "\n" + after])
            == ApplyLines(parse, p, [before, x, y, after])
  {
    Text.SplitJoin([before, x]);
    Text.SplitJoin([y, after]);
    assert Text.Join([before, x]) == before + "\n" + x;
    assert Text.Join([y, after]) == y + "\n" + after;
    ApplyTwoChunks(parse, p, before + "\n" + x, y + "\n" + after);
    assert [before, x] + [y, after] == [before, x, y, after];
  }

  /** A line the client skips (blank, rejected by `JSON.parse`, or of another
      type) has no effect, and the lines after it are still applied. */
  lemma SkippedLineIsTransparent(parse: Parser, p: Progress, before: seq<string>, line: string, after: seq<string>)
    requires Classify(parse, line) in {Blank, Malformed, Ignored}
    ensures ApplyLines(parse, p, before + [line] + after) == ApplyLines(parse, p, before + after)
  {
    ApplyLinesAppend(parse, p, before + [line], after);
    ApplyLinesAppend(parse, p, before, after);
    assert (before + [line])[..|before + [line]| - 1] == before;
  }

  /** The first text line of a stream overwrites the optimistic user message: the
      message list ends up as the history before the submit plus one assistant
      message holding all text received. Without text lines the user message stays. */
  lemma FirstTextReplacesUserMessage(parse: Parser, history: seq<Message>, text: string,
                                     navigations: seq<string>, lines: seq<string>)
    ensures var r := ApplyLines(parse, Progress(history + [UserMessage(text)], [], navigations), lines);
            if HasText(parse, lines) then r.messages == history + [AssistantMessage(TextOf(parse, lines))]
            else r.messages == history + [UserMessage(text)]
  {
    var p := Progress(history + [UserMessage(text)], [], navigations);
    ApplyLinesEffect(parse, p, lines);
    assert [] + TextOf(parse, lines) == TextOf(parse, lines);
  }

  /** Every message before the last one is left as it was. */
  lemma EarlierMessagesUntouched(parse: Parser, p: Progress, lines: seq<string>, i: nat)
    requires i + 1 < |p.messages|
    ensures var r := ApplyLines(parse, p, lines); i < |r.messages| && r.messages[i] == p.messages[i]
  {
    ApplyLinesEffect(parse, p, lines);
  }

  /** Each `chat_id` line navigates, even when it repeats the same id. */
  lemma RepeatedChatIdNavigatesTwice(parse: Parser, p: Progress, line: string, id: string)
    requires Classify(parse, line) == NavigateTo(id)
    ensures var r := ApplyLines(parse, p, [line, line]);
            r.navigations == p.navigations + [ChatRoute(id), ChatRoute(id)] && r.messages == p.messages
  {
    ApplyOne(parse, p, [], line);
    ApplyOne(parse, p, [line], line);
    assert [] + [line] == [line] && [line] + [line] == [line, line];
  }

  /** A JSON line cut by a chunk boundary is lost: when neither fragment parses,
      the two chunks act as the lines around the cut alone, while the same text
      arriving as one chunk would have applied the whole line. */
  lemma SpanningLineIsLost(parse: Parser, p: Progress, before: string, x: string, y: string, after: string)
    requires '\n' !in before && '\n' !in x && '\n' !in y && '\n' !in after
    requires Classify(parse, x) == Malformed && Classify(parse, y) == Malformed
    ensures ApplyChunks(parse, p, [before + "\n" + x, y + "\n" + after])
            == ApplyLines(parse, p, [before, after])
    ensures ApplyChunks(parse, p, [(before + "\n" + x) + (y + "\n" + after)])
            == ApplyLines(parse, p, [before, x + y, after])
  {
    CutFragmentsDropped(parse, p, before, x, y, after);
    UncutLineKept(parse, p, before, x, y, after);
  }

  /** The two-chunk half of `SpanningLineIsLost`. */
  lemma CutFragmentsDropped(parse: Parser, p: Progress, before: string, x: string, y: string, after: string)
    requires '\n' !in before && '\n' !in x && '\n' !in y && '\n' !in after
    requires Classify(parse, x) == Malformed && Classify(parse, y) == Malformed
    ensures ApplyChunks(parse, p, [before + "\n" + x, y + "\n" + after])
            == ApplyLines(parse, p, [before, after])
  {
    LineCutAcrossChunks(parse, p, before, x, y, after);
    SkippedLineIsTransparent(parse, p, [before], x, [y, after]);
    assert [before] + [x] + [y, after] == [before, x, y, after];
    SkippedLineIsTransparent(parse, p, [before], y, [after]);
    assert [before] + [y] + [after] == [before] + [y, after];
    assert [before] + [after] == [before, after];
  }

  /** The one-chunk half of `SpanningLineIsLost`. */
  lemma UncutLineKept(parse: Parser, p: Progress, before: string, x: string, y: string, after: string)
    requires '\n' !in before && '\n' !in x && '\n' !in y && '\n' !in after
    ensures ApplyChunks(parse, p, [(before + "\n" + x) + (y + "\n" + after)])
            == ApplyLines(parse, p, [before, x + y, after])
  {
    var whole := (before + "\n" + x) + (y + "\n" + after);
    SplitAroundLine(before, x, y, after);
    assert [whole][..0] == [];
    assert ApplyChunks(parse, p, [whole]) == ApplyLines(parse, ApplyChunks(parse, p, []), Text.Split(whole));
  }

  /** The text of the two chunks, taken as one, splits into the line before,
      the whole cut line, and the line after. */
  lemma SplitAroundLine(before: string, x: string, y: string, after: string)
    requires '\n' !in before && '\n' !in x && '\n' !in y && '\n' !in after
    ensures Text.Split((before + "\n" + x) + (y + "\n" + after)) == [before, x + y, after]
  {
    var whole := x + y;
    assert '\n' !in whole by {
      forall i | 0 <= i < |whole| ensures whole[i] != '\n' {
        if i < |x| { assert whole[i] == x[i]; } else { assert whole[i] == y[i - |x|]; }
      }
    }
    var rest := whole + "\n" + after;
    assert Text.Split(rest) == [whole, after] by {
      Text.SplitNoNewline(after);
      Text.SplitAfterNewline(whole, after, [after]);
    }
    assert Text.Split(before + "\n" + rest) == [before, whole, after] by {
      Text.SplitAfterNewline(before, rest, [whole, after]);
      assert [before] + [whole, after] == [before, whole, after];
    }
    ReassociateCut(before, x, y, after);
  }

  /** The same characters, grouped around the cut line instead of the chunks. */
  lemma ReassociateCut(before: string, x: string, y: string, after: string)
    ensures (before + "\n" + x) + (y + "\n" + after) == before + "\n" + ((x + y) + "\n" + after)
  {
  }
}
