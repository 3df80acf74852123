/** The tenant chat: sending a message and reading the assistant's reply as a stream of
    `data: ` lines. The HTTP request and the body reader are described by `ChatResponse`
    (the chunks the reader delivers, already decoded to text); `JSON.parse` of a payload is
    the parameter `parse`, None when parsing throws. */
module TenantChat {
  import opened Types
  import opened Text

  datatype ChatMessage = ChatMessage(role: MessageRole, content: string)

  /** A parsed stream event. Event types other than `text` and `ticket_created` are
      `OtherEvent`; a `ticket_created` event without a `ticketId` carries None. */
  datatype StreamEvent = TextEvent(content: string) | TicketCreatedEvent(ticketId: Option<string>) | OtherEvent

  /** How the request goes: `fetch` throws, the status is not ok, the response has no body
      reader, or the reader delivers `chunks` and then reports done (or throws, when
      `readFails`). */
  datatype ChatResponse =
    | RequestFailed
    | NotOk(status: int)
    | NoBody
    | Streamed(chunks: seq<string>, readFails: bool)

  /** The part of the chat's state that the stream updates. */
  datatype ChatView = ChatView(messages: seq<ChatMessage>, ticketId: Option<string>)

  const DATA_PREFIX: string := "data: "
  const DONE_MARKER: string := "[DONE]"
  const APOLOGY: string := "Sorry, something went wrong. Please try again."

  /** `w` is `v` with, at most, more text at the end of the last message: same length, same
      roles, the same messages before the last one, and the last content extended. */
  predicate OnlyLastGrows(v: seq<ChatMessage>, w: seq<ChatMessage>) {
    && |w| == |v|
    && (forall i :: 0 <= i < |v| ==> w[i].role == v[i].role)
    && (forall i :: 0 <= i < |v| - 1 ==> w[i] == v[i])
    && (|v| > 0 ==> StartsWith(w[|v| - 1].content, v[|v| - 1].content))
  }

  lemma OnlyLastGrowsTransitive(u: seq<ChatMessage>, v: seq<ChatMessage>, w: seq<ChatMessage>)
    requires OnlyLastGrows(u, v) && OnlyLastGrows(v, w)
    ensures OnlyLastGrows(u, w)
  {
    if |u| > 0 {
      var a, b, c := u[|u| - 1].content, v[|u| - 1].content, w[|u| - 1].content;
      assert c[..|a|] == c[..|b|][..|a|] == b[..|a|] == a;
    }
  }

  /** A `text` event: its content is added to the last message when that message is the
      assistant's; otherwise nothing changes. */
  function AppendToLastAi(msgs: seq<ChatMessage>, text: string): (r: seq<ChatMessage>)
    ensures OnlyLastGrows(msgs, r)
    ensures |msgs| > 0 && msgs[|msgs| - 1].role == Ai ==>
      r[|msgs| - 1].content == msgs[|msgs| - 1].content + text
    ensures !(|msgs| > 0 && msgs[|msgs| - 1].role == Ai) ==> r == msgs
  {
    if |msgs| > 0 && msgs[|msgs| - 1].role == Ai then
      var last := msgs[|msgs| - 1];
      assert (last.content + text)[..|last.content|] == last.content;
      msgs[|msgs| - 1 := ChatMessage(Ai, last.content + text)]
    else
      assert |msgs| > 0 ==> msgs[|msgs| - 1].content[..|msgs[|msgs| - 1].content|] == msgs[|msgs| - 1].content;
      msgs
  }

  /** One parsed event applied to the chat: `text` extends the assistant's message,
      `ticket_created` records the ticket id (None when the event has none), and anything
      else (including a payload that does not parse) changes nothing. */
  function Dispatch(v: ChatView, event: Option<StreamEvent>): (w: ChatView)
    ensures OnlyLastGrows(v.messages, w.messages)
    ensures event.Some? && event.value.TextEvent? ==>
      w == ChatView(AppendToLastAi(v.messages, event.value.content), v.ticketId)
    ensures event.Some? && event.value.TicketCreatedEvent? ==>
      w == ChatView(v.messages, event.value.ticketId)
    ensures event.None? || event.value.OtherEvent? ==> w == v
  {
    match event
    case Some(TextEvent(text)) => ChatView(AppendToLastAi(v.messages, text), v.ticketId)
    case Some(TicketCreatedEvent(id)) => ChatView(v.messages, id)
    case _ =>
      assert OnlyLastGrows(v.messages, v.messages) by {
        if |v.messages| > 0 {
          var c := v.messages[|v.messages| - 1].content;
          assert c[..|c|] == c;
        }
      }
      v
  }

  /** The complete lines of one chunk, in order: lines that do not start with "data: " are
      skipped, the payload is the rest of the line, and "[DONE]" stops the remaining lines
      of this chunk. */
  function ProcessLines(v: ChatView, lines: seq<string>, parse: string -> Option<StreamEvent>)
    : ChatView
    decreases |lines|
  {
    if lines == [] then v
    else if !StartsWith(lines[0], DATA_PREFIX) then ProcessLines(v, lines[1..], parse)
    else
      var data := lines[0][|DATA_PREFIX|..];
      if data == DONE_MARKER then v
      else ProcessLines(Dispatch(v, parse(data)), lines[1..], parse)
  }

  /** The chunks the reader delivers, each appended to the pending `buffer` and split on
      '\n': every piece but the last is a complete line, the last is the new buffer. */
  function ProcessStream(
    v: ChatView, buffer: string, chunks: seq<string>, parse: string -> Option<StreamEvent>)
    : ChatView
    decreases |chunks|
  {
    if chunks == [] then v
    else
      var lines := Split(buffer + chunks[0]);
      ProcessStream(ProcessLines(v, lines[..|lines| - 1], parse), lines[|lines| - 1], chunks[1..], parse)
  }

  /** The error handler: an assistant message that is still empty becomes the apology. */
  function Apologize(msgs: seq<ChatMessage>): (r: seq<ChatMessage>)
    ensures OnlyLastGrows(msgs, r)
    ensures r != msgs <==> |msgs| > 0 && msgs[|msgs| - 1].role == Ai && msgs[|msgs| - 1].content == ""
    ensures r != msgs ==> r[|msgs| - 1].content == APOLOGY
  {
    if |msgs| > 0 && msgs[|msgs| - 1].role == Ai && msgs[|msgs| - 1].content == "" then
      assert APOLOGY[..0] == "";
      msgs[|msgs| - 1 := ChatMessage(Ai, APOLOGY)]
    else
      assert |msgs| > 0 ==> msgs[|msgs| - 1].content[..|msgs[|msgs| - 1].content|] == msgs[|msgs| - 1].content;
      msgs
  }

  /** What sending `text` does to the chat: the tenant's message and an empty assistant
      message are appended, the reply is streamed into the latter, and on any failure the
      assistant message, if still empty, becomes the apology. */
  function SendOutcome(
    msgs: seq<ChatMessage>, ticketId: Option<string>, text: string,
    response: ChatResponse, parse: string -> Option<StreamEvent>): ChatView
  {
    var start := ChatView(msgs + [ChatMessage(TenantRole, text), ChatMessage(Ai, "")], ticketId);
    match response
    case Streamed(chunks, readFails) =>
      var w := ProcessStream(start, "", chunks, parse);
      if readFails then ChatView(Apologize(w.messages), w.ticketId) else w
    case _ => ChatView(Apologize(start.messages), start.ticketId)
  }

  /** The lines of one chunk only ever extend the last message. */
  lemma {:induction false} ProcessLinesOnlyLastGrows(
    v: ChatView, lines: seq<string>, parse: string -> Option<StreamEvent>)
    ensures OnlyLastGrows(v.messages, ProcessLines(v, lines, parse).messages)
    decreases |lines|
  {
    if lines == [] {
      assert OnlyLastGrows(v.messages, v.messages) by {
        if |v.messages| > 0 {
          var c := v.messages[|v.messages| - 1].content;
          assert c[..|c|] == c;
        }
      }
    } else if !StartsWith(lines[0], DATA_PREFIX) {
      ProcessLinesOnlyLastGrows(v, lines[1..], parse);
    } else {
      var data := lines[0][|DATA_PREFIX|..];
      if data == DONE_MARKER {
        ProcessLinesOnlyLastGrows(v, [], parse);
      } else {
        var u := Dispatch(v, parse(data));
        ProcessLinesOnlyLastGrows(u, lines[1..], parse);
        OnlyLastGrowsTransitive(v.messages, u.messages, ProcessLines(u, lines[1..], parse).messages);
      }
    }
  }

  /** A whole stream never adds or removes a message, never changes a role, and only
      appends text to the last message. */
  lemma {:induction false} ProcessStreamOnlyLastGrows(
    v: ChatView, buffer: string, chunks: seq<string>, parse: string -> Option<StreamEvent>)
    ensures OnlyLastGrows(v.messages, ProcessStream(v, buffer, chunks, parse).messages)
    decreases |chunks|
  {
    if chunks == [] {
      ProcessLinesOnlyLastGrows(v, [], parse);
    } else {
      var lines := Split(buffer + chunks[0]);
      var u := ProcessLines(v, lines[..|lines| - 1], parse);
      ProcessLinesOnlyLastGrows(v, lines[..|lines| - 1], parse);
      ProcessStreamOnlyLastGrows(u, lines[|lines| - 1], chunks[1..], parse);
      OnlyLastGrowsTransitive(
        v.messages, u.messages, ProcessStream(u, lines[|lines| - 1], chunks[1..], parse).messages);
    }
  }

  /** After a chunk, the new buffer holds no '\n', and the lines handed on (each with its
      '\n') followed by the new buffer are exactly the old buffer followed by the chunk. */
  lemma ChunkBuffering(buffer: string, chunk: string)
    ensures var lines := Split(buffer + chunk);
      && '\n' !in lines[|lines| - 1]
      && Terminated(lines[..|lines| - 1]) + lines[|lines| - 1] == buffer + chunk
  {
    TerminatedThenRest(Split(buffer + chunk));
  }

  /** Text that has no '\n' yet is only buffered: no line is handed on. */
  lemma NoNewlineNoLines(buffer: string, chunk: string)
    requires '\n' !in buffer + chunk
    ensures Split(buffer + chunk) == [buffer + chunk]
  {
    SplitJoin([buffer + chunk]);
  }

  /** A "[DONE]" line stops the lines after it in the same chunk. */
  lemma {:induction false} DoneStopsChunk(
    v: ChatView, lines: seq<string>, k: nat, parse: string -> Option<StreamEvent>)
    requires k < |lines| && lines[k] == DATA_PREFIX + DONE_MARKER
    ensures ProcessLines(v, lines, parse) == ProcessLines(v, lines[..k], parse)
    decreases k
  {
    if k == 0 {
      assert lines[0][..|DATA_PREFIX|] == DATA_PREFIX;
      assert lines[0][|DATA_PREFIX|..] == DONE_MARKER;
    } else {
      assert lines[..k][0] == lines[0] && lines[..k][1..] == lines[1..][..k - 1];
      if StartsWith(lines[0], DATA_PREFIX) {
        var data := lines[0][|DATA_PREFIX|..];
        if data != DONE_MARKER {
          DoneStopsChunk(Dispatch(v, parse(data)), lines[1..], k - 1, parse);
        }
      } else {
        DoneStopsChunk(v, lines[1..], k - 1, parse);
      }
    }
  }

  /** "[DONE]" ends only its own chunk: whatever the buffer and wherever the "[DONE]" line
      falls among the chunk's complete lines, the lines before it are handled, the rest of
      the chunk is skipped, and the following chunks are read with the new buffer. */
  lemma DoneDoesNotEndStream(
    v: ChatView, buffer: string, chunk: string, rest: seq<string>, k: nat,
    parse: string -> Option<StreamEvent>)
    requires k < |Split(buffer + chunk)| - 1
    requires Split(buffer + chunk)[k] == DATA_PREFIX + DONE_MARKER
    ensures var lines := Split(buffer + chunk);
      ProcessStream(v, buffer, [chunk] + rest, parse)
        == ProcessStream(ProcessLines(v, lines[..k], parse), lines[|lines| - 1], rest, parse)
  {
    var lines := Split(buffer + chunk);
    assert ([chunk] + rest)[0] == chunk && ([chunk] + rest)[1..] == rest;
    DoneStopsChunk(v, lines[..|lines| - 1], k, parse);
    assert lines[..|lines| - 1][..k] == lines[..k];
  }

  /** The concatenation of the chunks. */
  function Concat(chunks: seq<string>): string {
    if chunks == [] then "" else chunks[0] + Concat(chunks[1..])
  }

  /** A last line that is never terminated by '\n' is never handled: a stream that carries
      no '\n' at all leaves the chat as it was. */
  lemma {:induction false} UnterminatedTailIgnored(
    v: ChatView, buffer: string, chunks: seq<string>, parse: string -> Option<StreamEvent>)
    requires '\n' !in buffer + Concat(chunks)
    ensures ProcessStream(v, buffer, chunks, parse) == v
    decreases |chunks|
  {
    if chunks != [] {
      assert buffer + Concat(chunks) == (buffer + chunks[0]) + Concat(chunks[1..]);
      NoNewlineNoLines(buffer, chunks[0]);
      UnterminatedTailIgnored(v, buffer + chunks[0], chunks[1..], parse);
    }
  }

  /** Whole lines, each with its '\n', sent as one chunk are handed on exactly as they are. */
  lemma TerminatedSplits(lines: seq<string>)
    requires forall k :: 0 <= k < |lines| ==> '\n' !in lines[k]
    ensures Split(Terminated(lines)) == lines + [""]
  {
    var all := lines + [""];
    TerminatedThenRest(all);
    assert all[..|all| - 1] == lines;
    assert Terminated(lines) + "" == Terminated(lines);
    SplitJoin(all);
  }

  /** A run of data lines that each parse to a `text` event appends the texts, in order,
      to the assistant's message, and changes nothing else. */
  lemma {:induction false} TextLinesAppendInOrder(
    v: ChatView, lines: seq<string>, texts: seq<string>, parse: string -> Option<StreamEvent>)
    requires |v.messages| > 0 && v.messages[|v.messages| - 1].role == Ai
    requires |lines| == |texts|
    requires forall k :: 0 <= k < |lines| ==>
      && StartsWith(lines[k], DATA_PREFIX)
      && lines[k][|DATA_PREFIX|..] != DONE_MARKER
      && parse(lines[k][|DATA_PREFIX|..]) == Some(TextEvent(texts[k]))
    ensures var n := |v.messages|;
      ProcessLines(v, lines, parse)
        == ChatView(v.messages[n - 1 := ChatMessage(Ai, v.messages[n - 1].content + Concat(texts))], v.ticketId)
    decreases |lines|
  {
    var n := |v.messages|;
    var c := v.messages[n - 1].content;
    if lines == [] {
      assert c + "" == c;
      assert v.messages[n - 1 := ChatMessage(Ai, c)] == v.messages;
    } else {
      var u := Dispatch(v, parse(lines[0][|DATA_PREFIX|..]));
      assert u.messages == v.messages[n - 1 := ChatMessage(Ai, c + texts[0])];
      forall k | 0 <= k < |lines[1..]|
        ensures && StartsWith(lines[1..][k], DATA_PREFIX)
                && lines[1..][k][|DATA_PREFIX|..] != DONE_MARKER
                && parse(lines[1..][k][|DATA_PREFIX|..]) == Some(TextEvent(texts[1..][k]))
      {
        assert lines[1..][k] == lines[k + 1] && texts[1..][k] == texts[k + 1];
      }
      TextLinesAppendInOrder(u, lines[1..], texts[1..], parse);
      assert (c + texts[0]) + Concat(texts[1..]) == c + Concat(texts);
      assert u.messages[n - 1 := ChatMessage(Ai, c + Concat(texts))]
          == v.messages[n - 1 := ChatMessage(Ai, c + Concat(texts))];
    }
  }

  /** The one line that ends the stream: a data line whose payload is "[DONE]". */
  const DONE_LINE: string := DATA_PREFIX + DONE_MARKER

  /** `ProcessLines` stops at a line exactly when that line is `DONE_LINE`. */
  lemma DoneLineExactly(line: string)
    ensures StartsWith(line, DATA_PREFIX) && line[|DATA_PREFIX|..] == DONE_MARKER
      <==> line == DONE_LINE
  {
    if StartsWith(line, DATA_PREFIX) {
      assert line == line[..|DATA_PREFIX|] + line[|DATA_PREFIX|..];
    }
    if line == DONE_LINE {
      assert line[..|DATA_PREFIX|] == DATA_PREFIX;
    }
  }

  /** Without a "[DONE]" line, handling lines in two runs is handling them in one. */
  lemma {:induction false} ProcessLinesAppend(
    v: ChatView, a: seq<string>, b: seq<string>, parse: string -> Option<StreamEvent>)
    requires DONE_LINE !in a
    ensures ProcessLines(v, a + b, parse) == ProcessLines(ProcessLines(v, a, parse), b, parse)
    decreases |a|
  {
    if a == [] {
      assert a + b == b;
    } else {
      assert (a + b)[0] == a[0] && (a + b)[1..] == a[1..] + b;
      assert a == [a[0]] + a[1..];
      DoneLineExactly(a[0]);
      if StartsWith(a[0], DATA_PREFIX) {
        ProcessLinesAppend(Dispatch(v, parse(a[0][|DATA_PREFIX|..])), a[1..], b, parse);
      } else {
        ProcessLinesAppend(v, a[1..], b, parse);
      }
    }
  }

  /** How the reply is cut into chunks does not matter when no line is "[DONE]": the stream
      handles exactly the complete lines of the buffer followed by all the chunks, as if
      they had arrived at once. */
  lemma {:induction false} StreamAsOneChunk(
    v: ChatView, buffer: string, chunks: seq<string>, parse: string -> Option<StreamEvent>)
    requires '\n' !in buffer
    requires DONE_LINE !in CompleteLines(buffer + Concat(chunks))
    ensures ProcessStream(v, buffer, chunks, parse)
      == ProcessLines(v, CompleteLines(buffer + Concat(chunks)), parse)
    decreases |chunks|
  {
    if chunks == [] {
      NoChunksNoLines(buffer, chunks);
    } else {
      var first, rest := buffer + chunks[0], Concat(chunks[1..]);
      var done, tail := CompleteLines(first), Leftover(first);
      FirstChunkLines(buffer, chunks);
      var u := ProcessLines(v, done, parse);
      calc {
        ProcessStream(v, buffer, chunks, parse);
        ProcessStream(u, tail, chunks[1..], parse);
        { StreamAsOneChunk(u, tail, chunks[1..], parse); }
        ProcessLines(u, CompleteLines(tail + rest), parse);
        { ProcessLinesAppend(v, done, CompleteLines(tail + rest), parse); }
        ProcessLines(v, done + CompleteLines(tail + rest), parse);
      }
    }
  }

  /** With no chunks, a buffer without a line break holds no complete line. */
  lemma NoChunksNoLines(buffer: string, chunks: seq<string>)
    requires '\n' !in buffer && chunks == []
    ensures CompleteLines(buffer + Concat(chunks)) == []
  {
    assert buffer + Concat(chunks) == buffer;
    SplitJoin([buffer]);
  }

  /** The complete lines of the whole stream are those of the first chunk, then those of
      its leftover, which holds no line break, followed by the remaining chunks. */
  lemma FirstChunkLines(buffer: string, chunks: seq<string>)
    requires chunks != []
    ensures var first := buffer + chunks[0];
      && '\n' !in Leftover(first)
      && CompleteLines(buffer + Concat(chunks))
        == CompleteLines(first) + CompleteLines(Leftover(first) + Concat(chunks[1..]))
  {
    var first, rest := buffer + chunks[0], Concat(chunks[1..]);
    assert buffer + Concat(chunks) == first + rest by {
      assert Concat(chunks) == chunks[0] + rest;
      ConcatAssociative(buffer, chunks[0], rest);
    }
    CompleteLinesAppend(first, rest);
  }

  /** End to end: a reply of whole `text` data lines, cut into chunks at any points, ends up
      in the assistant's message as the old content followed by the texts, in order. */
  lemma TextReplyStreamed(
    v: ChatView, chunks: seq<string>, lines: seq<string>, texts: seq<string>,
    parse: string -> Option<StreamEvent>)
    requires |v.messages| > 0 && v.messages[|v.messages| - 1].role == Ai
    requires Concat(chunks) == Terminated(lines)
    requires |lines| == |texts|
    requires forall k :: 0 <= k < |lines| ==>
      && '\n' !in lines[k]
      && StartsWith(lines[k], DATA_PREFIX)
      && lines[k][|DATA_PREFIX|..] != DONE_MARKER
      && parse(lines[k][|DATA_PREFIX|..]) == Some(TextEvent(texts[k]))
    ensures var n := |v.messages|;
      ProcessStream(v, "", chunks, parse)
        == ChatView(v.messages[n - 1 := ChatMessage(Ai, v.messages[n - 1].content + Concat(texts))], v.ticketId)
  {
    TerminatedSplits(lines);
    assert "" + Concat(chunks) == Terminated(lines);
    assert CompleteLines("" + Concat(chunks)) == lines by {
      var all := lines + [""];
      assert all[..|all| - 1] == lines;
    }
    forall k | 0 <= k < |lines| ensures lines[k] != DONE_LINE {
      DoneLineExactly(lines[k]);
    }
    StreamAsOneChunk(v, "", chunks, parse);
    TextLinesAppendInOrder(v, lines, texts, parse);
  }

  /** Whatever happens to the request, a send leaves the earlier messages, then the tenant's
      message, then one assistant message; a request that fails before any reply is read
      turns that message into the apology and leaves the ticket id alone. */
  lemma SendOutcomeShape(
    msgs: seq<ChatMessage>, ticketId: Option<string>, text: string,
    response: ChatResponse, parse: string -> Option<StreamEvent>)
    ensures var w := SendOutcome(msgs, ticketId, text, response, parse);
      && |w.messages| == |msgs| + 2
      && w.messages[..|msgs| + 1] == msgs + [ChatMessage(TenantRole, text)]
      && w.messages[|msgs| + 1].role == Ai
    ensures !response.Streamed? ==>
      SendOutcome(msgs, ticketId, text, response, parse)
        == ChatView(msgs + [ChatMessage(TenantRole, text), ChatMessage(Ai, APOLOGY)], ticketId)
  {
    var start := ChatView(msgs + [ChatMessage(TenantRole, text), ChatMessage(Ai, "")], ticketId);
    var w := SendOutcome(msgs, ticketId, text, response, parse);
    if response.Streamed? {
      var u := ProcessStream(start, "", response.chunks, parse);
      ProcessStreamOnlyLastGrows(start, "", response.chunks, parse);
      assert u.messages[..|msgs| + 1] == start.messages[..|msgs| + 1];
      assert w.messages[..|msgs| + 1] == u.messages[..|msgs| + 1];
    }
    assert start.messages[..|msgs| + 1] == msgs + [ChatMessage(TenantRole, text)];
  }

  /** An error keeps the reply streamed so far: only an assistant message that is still
      empty is replaced. */
  lemma ApologyKeepsPartialReply(msgs: seq<ChatMessage>)
    requires |msgs| > 0 && msgs[|msgs| - 1].content != ""
    ensures Apologize(msgs) == msgs
  {
  }

  /** The chat component's state. */
  class Chat {
    var messages: seq<ChatMessage>
    var input: string
    var isLoading: bool
    var ticketId: Option<string>

    constructor ()
      ensures messages == [] && input == "" && !isLoading && ticketId == None
    {
      messages, input, isLoading, ticketId := [], "", false, None;
    }

    /** The part of the state that the stream updates. */
    function View(): ChatView
      reads this
    {
      ChatView(messages, ticketId)
    }

    /** The handler for one parsed payload. */
    method HandleEvent(event: Option<StreamEvent>)
      modifies this
      ensures View() == Dispatch(old(View()), event)
      ensures input == old(input) && isLoading == old(isLoading)
    {
      match event {
        case Some(TextEvent(content)) =>
          if |messages| > 0 && messages[|messages| - 1].role == Ai {
            var last := messages[|messages| - 1];
            messages := messages[|messages| - 1 := ChatMessage(Ai, last.content + content)];
          }
        case Some(TicketCreatedEvent(id)) =>
          ticketId := id;
        case _ =>
      }
    }

    /** The loop over the complete lines of one chunk. */
    method HandleLines(lines: seq<string>, parse: string -> Option<StreamEvent>)
      modifies this
      ensures View() == ProcessLines(old(View()), lines, parse)
      ensures input == old(input) && isLoading == old(isLoading)
    {
      ghost var target := ProcessLines(View(), lines, parse);
      var j := 0;
      while j < |lines|
        invariant 0 <= j <= |lines|
        invariant ProcessLines(View(), lines[j..], parse) == target
        invariant input == old(input) && isLoading == old(isLoading)
      {
        var line := lines[j];
        assert lines[j..][0] == line && lines[j..][1..] == lines[j + 1..];
        if !StartsWith(line, DATA_PREFIX) {
          j := j + 1;
          continue;
        }
        var data := line[|DATA_PREFIX|..];
        if data == DONE_MARKER {
          break;
        }
        HandleEvent(parse(data));
        j := j + 1;
      }
    }

    /** The read loop: each chunk is added to the buffer, the complete lines are handled and
        the unterminated rest is kept for the next chunk. */
    method ReadStream(chunks: seq<string>, parse: string -> Option<StreamEvent>)
      modifies this
      ensures View() == ProcessStream(old(View()), "", chunks, parse)
      ensures input == old(input) && isLoading == old(isLoading)
    {
      ghost var target := ProcessStream(View(), "", chunks, parse);
      var buffer := "";
      var i := 0;
      while i < |chunks|
        invariant 0 <= i <= |chunks|
        invariant '\n' !in buffer
        invariant ProcessStream(View(), buffer, chunks[i..], parse) == target
        invariant input == old(input) && isLoading == old(isLoading)
      {
        assert chunks[i..][0] == chunks[i] && chunks[i..][1..] == chunks[i + 1..];
        buffer := buffer + chunks[i];
        var lines := Split(buffer);
        buffer := lines[|lines| - 1];
        HandleLines(lines[..|lines| - 1], parse);
        i := i + 1;
      }
    }

    /** `handleSend`: does nothing when the trimmed input is empty or a send is in flight;
        otherwise clears the input, appends the tenant's message and an empty assistant
        message, streams the reply into the latter, falls back to the apology on failure,
        and always ends with `isLoading` false. */
    method HandleSend(response: ChatResponse, parse: string -> Option<StreamEvent>)
      modifies this
      ensures var text := Trim(old(input));
        if text == [] || old(isLoading) then
          && messages == old(messages) && input == old(input)
          && isLoading == old(isLoading) && ticketId == old(ticketId)
        else
          && input == "" && !isLoading
          && View() == SendOutcome(old(messages), old(ticketId), text, response, parse)
    {
      var text := Trim(input);
      if text == [] || isLoading {
        return;
      }
      messages := messages + [ChatMessage(TenantRole, text)];
      input := "";
      isLoading := true;
      messages := messages + [ChatMessage(Ai, "")];
      ghost var start := View();
      assert start == ChatView(old(messages) + [ChatMessage(TenantRole, text), ChatMessage(Ai, "")], old(ticketId));

      match response {
        case Streamed(chunks, readFails) =>
          ReadStream(chunks, parse);
          ghost var w := ProcessStream(start, "", chunks, parse);
          assert View() == w;
          Finish(readFails);
        case _ =>
          Finish(true);
      }
    }

    /** The `catch` and `finally` blocks: on failure an empty assistant message becomes the
        apology; loading ends either way. */
    method Finish(failed: bool)
      modifies this
      ensures messages == (if failed then Apologize(old(messages)) else old(messages))
      ensures ticketId == old(ticketId) && input == old(input) && !isLoading
    {
      if failed {
        messages := Apologize(messages);
      }
      isLoading := false;
    }
  }
}
