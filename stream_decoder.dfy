/** The client side of the chat event stream (app/chat/page.tsx, inside `send`): text read
    from the response body is appended to a buffer, complete records are cut off at each
    blank line, the last `event:` and `data:` line of a record are picked out, the payload
    is parsed, and the event it carries is folded into the assistant message being built. */
module StreamDecoder {
  import opened Wrappers
  import opened JsText
  import opened JsValue
  import opened ChatTypes

  // ===========================================================================
  // Framing: records end at "\n\n"

  const Delimiter: string := "\n\n"

  predicate DelimiterAt(s: string, i: int)
  {
    0 <= i && i + 1 < |s| && s[i] == '\n' && s[i + 1] == '\n'
  }

  predicate HasDelimiter(s: string)
  {
    exists i :: 0 <= i < |s| && DelimiterAt(s, i)
  }

  /** The first delimiter at or after position `from`. */
  function IndexOfDelimiterFrom(s: string, from: nat): (r: Option<nat>)
    ensures r.Some? ==> from <= r.value && DelimiterAt(s, r.value)
    ensures r.Some? ==> forall j :: from <= j < r.value ==> !DelimiterAt(s, j)
    ensures r.None? ==> forall j :: from <= j < |s| ==> !DelimiterAt(s, j)
    decreases |s| - from
  {
    if from + 1 >= |s| then None
    else if s[from] == '\n' && s[from + 1] == '\n' then Some(from)
    else IndexOfDelimiterFrom(s, from + 1)
  }

  /** `s.indexOf("\n\n")`, with `None` for -1. */
  function IndexOfDelimiter(s: string): (r: Option<nat>)
    ensures r.Some? ==> DelimiterAt(s, r.value) && forall j :: 0 <= j < r.value ==> !DelimiterAt(s, j)
    ensures r.None? <==> !HasDelimiter(s)
  {
    IndexOfDelimiterFrom(s, 0)
  }

  /** What framing cuts off: no delimiter inside and no newline at the end, so the
      delimiter that follows a record is the first one after its start. */
  predicate IsRecord(r: string)
  {
    !HasDelimiter(r) && (r == [] || r[|r| - 1] != '\n')
  }

  /** The records cut from a buffer and the unterminated text left behind. */
  datatype Framed = Framed(records: seq<string>, rest: string)

  /** Puts the records back together, each followed by its delimiter. */
  function Unframe(records: seq<string>, rest: string): string
  {
    if records == [] then rest else records[0] + Delimiter + Unframe(records[1..], rest)
  }

  /** The text before the first delimiter is a record. */
  lemma FirstPieceIsRecord(b: string, i: nat)
    requires DelimiterAt(b, i) && forall j :: 0 <= j < i ==> !DelimiterAt(b, j)
    ensures IsRecord(b[..i])
  {
    forall j | 0 <= j < i ensures !DelimiterAt(b[..i], j) {
      assert !DelimiterAt(b, j);
    }
    if i > 0 {
      assert !DelimiterAt(b, i - 1);
    }
  }

  /** The inner `while` loop of the reader, as a function of the whole buffer: it keeps
      cutting off the text before the first "\n\n" until none is left. */
  function Frame(b: string): Framed
    decreases |b|
  {
    match IndexOfDelimiter(b)
    case None => Framed([], b)
    case Some(i) =>
      var tail := Frame(b[i + 2..]);
      Framed([b[..i]] + tail.records, tail.rest)
  }

  lemma SplitAtDelimiter(b: string, i: int)
    requires DelimiterAt(b, i)
    ensures b == b[..i] + Delimiter + b[i + 2..]
  {
    assert b[i..i + 2] == Delimiter;
    assert b == b[..i] + b[i..i + 2] + b[i + 2..];
  }

  lemma UnframeCons(r: string, records: seq<string>, rest: string)
    ensures Unframe([r] + records, rest) == r + Delimiter + Unframe(records, rest)
  {
    assert ([r] + records)[1..] == records;
  }

  /** Framing loses nothing: the records, each followed by a delimiter, then the rest,
      give back the buffer. */
  lemma {:induction false} FrameLossless(b: string)
    ensures Unframe(Frame(b).records, Frame(b).rest) == b
    decreases |b|
  {
    var idx := IndexOfDelimiter(b);
    if idx.None? {
      FrameDone(b);
    } else {
      var i := idx.value;
      var after := b[i + 2..];
      var tail := Frame(after);
      FrameStep(b, i);
      FrameLossless(after);
      UnframeCons(b[..i], tail.records, tail.rest);
      SplitAtDelimiter(b, i);
    }
  }

  /** Every piece framing cuts off is a record. */
  lemma {:induction false} FrameCutsRecords(b: string)
    ensures forall k :: 0 <= k < |Frame(b).records| ==> IsRecord(Frame(b).records[k])
    decreases |b|
  {
    var idx := IndexOfDelimiter(b);
    if idx.None? {
      FrameDone(b);
    } else {
      var i := idx.value;
      var tail := Frame(b[i + 2..]);
      var f := Frame(b);
      FrameStep(b, i);
      FirstPieceIsRecord(b, i);
      FrameCutsRecords(b[i + 2..]);
      forall k | 0 <= k < |f.records|
        ensures IsRecord(f.records[k])
      {
        if k > 0 {
          assert f.records[k] == tail.records[k - 1];
        }
      }
    }
  }

  /** What framing leaves behind holds no delimiter. */
  lemma {:induction false} FrameRestClean(b: string)
    ensures !HasDelimiter(Frame(b).rest)
    decreases |b|
  {
    var idx := IndexOfDelimiter(b);
    if idx.None? {
      FrameDone(b);
    } else {
      FrameStep(b, idx.value);
      FrameRestClean(b[idx.value + 2..]);
    }
  }

  /** Framing loses nothing, leaves no delimiter in the tail, and cuts only records. */
  lemma FrameSound(b: string)
    ensures Unframe(Frame(b).records, Frame(b).rest) == b
    ensures !HasDelimiter(Frame(b).rest)
    ensures forall k :: 0 <= k < |Frame(b).records| ==> IsRecord(Frame(b).records[k])
  {
    FrameLossless(b);
    FrameCutsRecords(b);
    FrameRestClean(b);
  }

  /** Framing is the only way to cut a buffer into records that are maximal
      delimiter-free pieces, followed by a delimiter-free remainder. */
  lemma {:induction false} FrameUnique(records: seq<string>, rest: string)
    requires forall k :: 0 <= k < |records| ==> IsRecord(records[k])
    requires !HasDelimiter(rest)
    ensures Frame(Unframe(records, rest)) == Framed(records, rest)
  {
    var b := Unframe(records, rest);
    if records == [] {
      assert IndexOfDelimiter(b).None?;
    } else {
      var r := records[0];
      var tail := Unframe(records[1..], rest);
      assert records == [r] + records[1..];
      UnframeCons(r, records[1..], rest);
      FirstDelimiterAfterRecord(r, tail);
      assert b[..|r|] == r && b[|r| + 2..] == tail;
      FrameUnique(records[1..], rest);
      FrameStep(b, |r|);
    }
  }

  /** A record followed by a delimiter: the first delimiter is the one right after it. */
  lemma FirstDelimiterAfterRecord(r: string, tail: string)
    requires IsRecord(r)
    ensures IndexOfDelimiter(r + Delimiter + tail) == Some(|r|)
  {
    var b := r + Delimiter + tail;
    assert DelimiterAt(b, |r|);
    forall j | 0 <= j < |r| ensures !DelimiterAt(b, j) {
      if j + 1 < |r| {
        if DelimiterAt(b, j) { assert DelimiterAt(r, j); }
      } else {
        assert b[j] == r[|r| - 1];
      }
    }
  }

  lemma {:induction false} UnframeAppend(a: seq<string>, b: seq<string>, rest: string)
    ensures Unframe(a + b, rest) == Unframe(a, Unframe(b, rest))
  {
    if a != [] {
      assert a + b != [] && (a + b)[0] == a[0] && (a + b)[1..] == a[1..] + b;
      UnframeAppend(a[1..], b, rest);
    } else {
      assert a + b == b;
    }
  }

  lemma {:induction false} UnframeExtend(records: seq<string>, rest: string, more: string)
    ensures Unframe(records, rest + more) == Unframe(records, rest) + more
  {
    if records != [] {
      UnframeExtend(records[1..], rest, more);
    }
  }

  /** Framing a buffer that grew by `y` gives the records framed before, then the records
      framed from what was left over plus `y`. */
  lemma FrameAppend(x: string, y: string)
    ensures Frame(x + y).records == Frame(x).records + Frame(Frame(x).rest + y).records
    ensures Frame(x + y).rest == Frame(Frame(x).rest + y).rest
  {
    var f1 := Frame(x);
    var f2 := Frame(f1.rest + y);
    FrameSound(x);
    FrameSound(f1.rest + y);
    var all := f1.records + f2.records;
    UnframeAppend(f1.records, f2.records, f2.rest);
    UnframeExtend(f1.records, f1.rest, y);
    assert Unframe(all, f2.rest) == x + y;
    FrameUnique(all, f2.rest);
  }

  // ===========================================================================
  // One record: the last `event:` and `data:` lines, each value trimmed

  /** The trimmed value of the last line starting with `prefix`, or "" when none does:
      what the `for (const line of lines)` loop leaves in `eventType` or `dataLine`. */
  function LastField(lines: seq<string>, prefix: string): string
  {
    if lines == [] then ""
    else if StartsWith(lines[|lines| - 1], prefix) then Trim(lines[|lines| - 1][|prefix|..])
    else LastField(lines[..|lines| - 1], prefix)
  }

  /** The last line carrying the field wins, whatever lines come before it. */
  lemma {:induction false} LastFieldWins(lines: seq<string>, prefix: string, k: nat)
    requires k < |lines| && StartsWith(lines[k], prefix)
    requires forall j :: k < j < |lines| ==> !StartsWith(lines[j], prefix)
    ensures LastField(lines, prefix) == Trim(lines[k][|prefix|..])
  {
    if k < |lines| - 1 {
      LastFieldWins(lines[..|lines| - 1], prefix, k);
    }
  }

  /** A record without any line carrying the field yields "". */
  lemma {:induction false} LastFieldAbsent(lines: seq<string>, prefix: string)
    requires forall j :: 0 <= j < |lines| ==> !StartsWith(lines[j], prefix)
    ensures LastField(lines, prefix) == ""
  {
    if lines != [] {
      LastFieldAbsent(lines[..|lines| - 1], prefix);
    }
  }

  datatype RecordFields = RecordFields(eventType: string, dataLine: string)

  /** `chunk.split("\n")` followed by the field scan. */
  function FieldsOf(record: string): RecordFields
  {
    var lines := Split(record, '\n');
    RecordFields(LastField(lines, "event:"), LastField(lines, "data:"))
  }

  /** The event a record carries: none when either field is empty, or when the payload
      does not parse (`JSON.parse` throwing, or a `type` outside the union). The `event:`
      value only has to be non-empty; dispatch is on the payload alone. */
  function EventOf(record: string, parse: string -> Option<ServerEvent>): Option<ServerEvent>
  {
    var fields := FieldsOf(record);
    if fields.eventType == "" || fields.dataLine == "" then None else parse(fields.dataLine)
  }

  // ===========================================================================
  // The fold into the assistant message

  /** `{ ok, error }` attached to a call by its result. */
  datatype CallOutcome = CallOutcome(ok: bool, error: Option<string>)

  /** An entry of `currentToolCalls`. */
  datatype ToolCall = ToolCall(toolName: string, input: Value, result: Option<CallOutcome>)

  /** An entry of `currentToolResults`. */
  datatype ShownResult = ShownResult(toolName: string, data: Value)

  /** The content last written into the assistant message: the accumulated text, or the
      default message `done` picks by the tool name of the first kept result. */
  datatype Shown = Streamed(text: string) | Canned(firstToolName: string)

  /** The accumulators of the reader loop (`assistantContent`, `currentToolCalls`,
      `currentToolResults`), the content last written into the assistant message, and the
      error banner text. */
  datatype Fold = Fold(
    content: string,
    toolCalls: seq<ToolCall>,
    toolResults: seq<ShownResult>,
    shown: Shown,
    notice: Option<string>)

  /** The state right after the empty assistant message is added. */
  const Start: Fold := Fold("", [], [], Streamed(""), None)

  /** The tool name `done` compares against, and the two fallback texts. The first text is
      kept as the source file spells it ("Pok\U{221A}\U{00A9}mon", a mis-decoded "Pokémon"). */
  const PokemonToolName: string := "pokeapi_get_pokemon"
  const PokemonPlaceholder: string := "Here's the Pok\U{221A}\U{00A9}mon information you requested:"
  const TypePlaceholder: string := "Here's the type effectiveness analysis:"

  function Placeholder(firstToolName: string): string
  {
    if firstToolName == PokemonToolName then PokemonPlaceholder else TypePlaceholder
  }

  /** The text the assistant message holds. */
  function MessageText(s: Shown): string
  {
    match s
    case Streamed(text) => text
    case Canned(name) => Placeholder(name)
  }

  predicate Unresolved(c: ToolCall, name: string)
  {
    c.toolName == name && c.result.None?
  }

  /** Call `k` is the first unresolved call of tool `name`. */
  predicate EarliestUnresolved(calls: seq<ToolCall>, name: string, k: int)
  {
    0 <= k < |calls| && Unresolved(calls[k], name) && forall j :: 0 <= j < k ==> !Unresolved(calls[j], name)
  }

  /** `currentToolCalls.findIndex(c => c.toolName === toolName && !c.result)`. */
  function FindUnresolved(calls: seq<ToolCall>, name: string): (r: Option<nat>)
    ensures r.Some? ==> EarliestUnresolved(calls, name, r.value)
    ensures r.None? ==> forall j :: 0 <= j < |calls| ==> !Unresolved(calls[j], name)
  {
    if calls == [] then None
    else if Unresolved(calls[0], name) then Some(0)
    else match FindUnresolved(calls[1..], name)
      case None => None
      case Some(i) => Some(i + 1)
  }

  /** Attaching a result: only the earliest unresolved call of that tool changes, and
      only its `result`; with no such call nothing changes. */
  function Resolve(calls: seq<ToolCall>, name: string, outcome: CallOutcome): (r: seq<ToolCall>)
    ensures |r| == |calls|
    ensures forall k :: 0 <= k < |calls| ==>
              r[k] == if EarliestUnresolved(calls, name, k) then calls[k].(result := Some(outcome)) else calls[k]
  {
    match FindUnresolved(calls, name)
    case None => calls
    case Some(i) => calls[i := calls[i].(result := Some(outcome))]
  }

  /** One event folded in, following the `if`/`else if` chain on `evt.type`. */
  function ApplyEvent(f: Fold, e: ServerEvent): Fold
  {
    match e
    case TextDelta(delta) =>
      var content := f.content + delta;
      f.(content := content, shown := Streamed(content))
    case ToolCallEvent(name, input) =>
      f.(toolCalls := f.toolCalls + [ToolCall(name, input, None)])
    case ToolResultEvent(name, ok, data, error) =>
      f.(toolCalls := Resolve(f.toolCalls, name, CallOutcome(ok, error)),
         toolResults := if ok && Truthy(data) then f.toolResults + [ShownResult(name, data)] else f.toolResults)
    case ErrorEvent(message) =>
      f.(notice := Some(message))
    case DoneEvent =>
      if f.content == "" && |f.toolResults| > 0 then f.(shown := Canned(f.toolResults[0].toolName)) else f
  }

  /** Events folded in order. */
  function ApplyEvents(f: Fold, events: seq<ServerEvent>): Fold
  {
    if events == [] then f else ApplyEvent(ApplyEvents(f, events[..|events| - 1]), events[|events| - 1])
  }

  /** A record folded in: records that carry no event leave everything as it was. */
  function ProcessRecord(f: Fold, record: string, parse: string -> Option<ServerEvent>): Fold
  {
    match EventOf(record, parse)
    case None => f
    case Some(e) => ApplyEvent(f, e)
  }

  /** Records folded in order. */
  function ProcessRecords(f: Fold, records: seq<string>, parse: string -> Option<ServerEvent>): Fold
  {
    if records == [] then f
    else ProcessRecord(ProcessRecords(f, records[..|records| - 1], parse), records[|records| - 1], parse)
  }

  /** The events the records carry, in order. */
  function EventsOf(records: seq<string>, parse: string -> Option<ServerEvent>): seq<ServerEvent>
  {
    if records == [] then []
    else
      var last := EventOf(records[|records| - 1], parse);
      EventsOf(records[..|records| - 1], parse) + if last.Some? then [last.value] else []
  }

  // ===========================================================================
  // The reader state and what one read does

  /** The reader's `buffer` together with the fold. */
  datatype DecoderState = DecoderState(buffer: string, fold: Fold)

  /** One `reader.read()` delivering `chunk`: the buffer grows and every complete record
      in it is folded in, in order. */
  function Receive(st: DecoderState, chunk: string, parse: string -> Option<ServerEvent>): DecoderState
  {
    var framed := Frame(st.buffer + chunk);
    DecoderState(framed.rest, ProcessRecords(st.fold, framed.records, parse))
  }

  /** Several reads in a row. */
  function ReceiveAll(st: DecoderState, chunks: seq<string>, parse: string -> Option<ServerEvent>): DecoderState
  {
    if chunks == [] then st else Receive(ReceiveAll(st, chunks[..|chunks| - 1], parse), chunks[|chunks| - 1], parse)
  }

  function Concat(chunks: seq<string>): string
  {
    if chunks == [] then "" else Concat(chunks[..|chunks| - 1]) + chunks[|chunks| - 1]
  }

  // ===========================================================================
  // Properties of the fold

  lemma {:induction false} ProcessRecordsAppend(f: Fold, a: seq<string>, b: seq<string>, parse: string -> Option<ServerEvent>)
    ensures ProcessRecords(f, a + b, parse) == ProcessRecords(ProcessRecords(f, a, parse), b, parse)
  {
    if b == [] {
      assert a + b == a;
    } else {
      var b' := b[..|b| - 1];
      assert (a + b)[..|a + b| - 1] == a + b';
      ProcessRecordsAppend(f, a, b', parse);
    }
  }

  /** Folding records is folding the events they carry: records without an event
      (missing field, unparsable payload) are skipped. */
  lemma {:induction false} RecordsCarryEvents(f: Fold, records: seq<string>, parse: string -> Option<ServerEvent>)
    ensures ProcessRecords(f, records, parse) == ApplyEvents(f, EventsOf(records, parse))
  {
    if records != [] {
      var init := records[..|records| - 1];
      RecordsCarryEvents(f, init, parse);
      var es := EventsOf(init, parse);
      match EventOf(records[|records| - 1], parse)
      case None =>
        assert EventsOf(records, parse) == es;
      case Some(e) =>
        assert EventsOf(records, parse) == es + [e];
        assert (es + [e])[..|es|] == es;
    }
  }

  /** A malformed record is dropped and the records after it are still folded. */
  lemma MalformedRecordSkipped(f: Fold, bad: string, later: seq<string>, parse: string -> Option<ServerEvent>)
    requires EventOf(bad, parse).None?
    ensures ProcessRecords(f, [bad] + later, parse) == ProcessRecords(f, later, parse)
  {
    ProcessRecordsAppend(f, [bad], later, parse);
    assert [bad][..0] == [];
  }

  /** Two reads in a row leave the same state as one read of both chunks. */
  lemma ReceiveTwice(st: DecoderState, c1: string, c2: string, parse: string -> Option<ServerEvent>)
    ensures Receive(Receive(st, c1, parse), c2, parse) == Receive(st, c1 + c2, parse)
  {
    var b := st.buffer + c1;
    var f1 := Frame(b);
    var f2 := Frame(f1.rest + c2);
    FrameAppend(b, c2);
    assert st.buffer + (c1 + c2) == b + c2;
    var mid := Receive(st, c1, parse);
    assert mid == DecoderState(f1.rest, ProcessRecords(st.fold, f1.records, parse));
    assert Receive(mid, c2, parse) == DecoderState(f2.rest, ProcessRecords(mid.fold, f2.records, parse));
    ProcessRecordsAppend(st.fold, f1.records, f2.records, parse);
  }

  /** Chunking invariance: however the stream is split into reads, the records folded and
      the text left in the buffer are those of the whole stream read at once. */
  lemma {:induction false} ChunkingInvariant(st: DecoderState, chunks: seq<string>, parse: string -> Option<ServerEvent>)
    requires !HasDelimiter(st.buffer)
    ensures ReceiveAll(st, chunks, parse) == Receive(st, Concat(chunks), parse)
  {
    if chunks == [] {
      assert st.buffer + "" == st.buffer;
      FrameUnique([], st.buffer);
    } else {
      var init := chunks[..|chunks| - 1];
      ChunkingInvariant(st, init, parse);
      ReceiveTwice(st, Concat(init), chunks[|chunks| - 1], parse);
    }
  }

  /** The text deltas of a sequence of events, concatenated in order. */
  function Deltas(events: seq<ServerEvent>): string
  {
    if events == [] then ""
    else Deltas(events[..|events| - 1]) + if events[|events| - 1].TextDelta? then events[|events| - 1].delta else ""
  }

  /** `assistantContent` is the in-order concatenation of all text deltas. */
  lemma {:induction false} ContentIsDeltas(f: Fold, events: seq<ServerEvent>)
    ensures ApplyEvents(f, events).content == f.content + Deltas(events)
  {
    if events != [] {
      var init := events[..|events| - 1];
      var e := events[|events| - 1];
      var before := ApplyEvents(f, init);
      ContentIsDeltas(f, init);
      assert ApplyEvents(f, events) == ApplyEvent(before, e);
      assert Deltas(events) == Deltas(init) + if e.TextDelta? then e.delta else "";
      if e.TextDelta? {
        assert ApplyEvent(before, e).content == before.content + e.delta;
      } else {
        assert ApplyEvent(before, e).content == before.content;
      }
    }
  }

  /** The ledger entries the `tool_call` events create, in order. */
  function Registered(events: seq<ServerEvent>): seq<ToolCall>
  {
    if events == [] then []
    else
      var e := events[|events| - 1];
      Registered(events[..|events| - 1]) + if e.ToolCallEvent? then [ToolCall(e.toolName, e.input, None)] else []
  }

  /** `now` is `was`, possibly with a result attached where `was` had none. */
  predicate SameCall(now: ToolCall, was: ToolCall)
  {
    now.toolName == was.toolName && now.input == was.input && (was.result.Some? ==> now == was)
  }

  /** The ledger: one entry per `tool_call`, appended in order and never removed; entries
      keep their tool name and input, and a result once attached is never replaced. */
  lemma {:induction false} LedgerGrowsByCalls(f: Fold, events: seq<ServerEvent>)
    ensures |ApplyEvents(f, events).toolCalls| == |f.toolCalls| + |Registered(events)|
    ensures forall k :: 0 <= k < |f.toolCalls| + |Registered(events)| ==>
              SameCall(ApplyEvents(f, events).toolCalls[k], (f.toolCalls + Registered(events))[k])
  {
    if events != [] {
      var init := events[..|events| - 1];
      var e := events[|events| - 1];
      LedgerGrowsByCalls(f, init);
      var before := ApplyEvents(f, init).toolCalls;
      var expected := f.toolCalls + Registered(init);
      match e
      case ToolCallEvent(name, input) =>
        assert f.toolCalls + Registered(events) == expected + [ToolCall(name, input, None)];
      case ToolResultEvent(name, ok, data, error) =>
        assert Registered(events) == Registered(init);
        var after := Resolve(before, name, CallOutcome(ok, error));
        forall k | 0 <= k < |expected| ensures SameCall(after[k], expected[k]) {
          assert SameCall(before[k], expected[k]);
        }
      case TextDelta(_) =>
        assert Registered(events) == Registered(init);
      case ErrorEvent(_) =>
        assert Registered(events) == Registered(init);
      case DoneEvent =>
        assert Registered(events) == Registered(init);
    }
  }

  /** The entries `tool_result` events add to `currentToolResults`: only those whose `ok`
      and `data` are both truthy. */
  function Kept(events: seq<ServerEvent>): seq<ShownResult>
  {
    if events == [] then []
    else
      var e := events[|events| - 1];
      Kept(events[..|events| - 1])
        + if e.ToolResultEvent? && e.ok && Truthy(e.data) then [ShownResult(e.toolName, e.data)] else []
  }

  /** `currentToolResults` grows by exactly the successful results that carry data. */
  lemma {:induction false} ResultsAreKept(f: Fold, events: seq<ServerEvent>)
    ensures ApplyEvents(f, events).toolResults == f.toolResults + Kept(events)
  {
    if events != [] {
      var init := events[..|events| - 1];
      var e := events[|events| - 1];
      var before := ApplyEvents(f, init);
      ResultsAreKept(f, init);
      assert ApplyEvents(f, events) == ApplyEvent(before, e);
      var added := if e.ToolResultEvent? && e.ok && Truthy(e.data) then [ShownResult(e.toolName, e.data)] else [];
      assert Kept(events) == Kept(init) + added;
      assert ApplyEvent(before, e).toolResults == before.toolResults + added;
      assert f.toolResults + Kept(init) + added == f.toolResults + (Kept(init) + added);
    }
  }

  /** The message of the last `error` event, if any. */
  function LastError(events: seq<ServerEvent>): Option<string>
  {
    if events == [] then None
    else if events[|events| - 1].ErrorEvent? then Some(events[|events| - 1].message)
    else LastError(events[..|events| - 1])
  }

  /** An `error` shows its message and the fold goes on: the banner holds the last error
      seen, and every later event is still applied. */
  lemma {:induction false} NoticeIsLastError(f: Fold, events: seq<ServerEvent>)
    ensures ApplyEvents(f, events).notice == if LastError(events).Some? then LastError(events) else f.notice
  {
    if events != [] {
      NoticeIsLastError(f, events[..|events| - 1]);
    }
  }

  /** What the assistant message shows: the accumulated text, or, while no text has
      arrived and some result has been kept, the placeholder picked by the first kept
      result's tool name. */
  predicate ShownConsistent(f: Fold)
  {
    MessageText(f.shown) == f.content
    || (f.content == "" && |f.toolResults| > 0 && MessageText(f.shown) == Placeholder(f.toolResults[0].toolName))
  }

  /** The placeholder goes into the message, never into `assistantContent`, and it is
      shown only when no text arrived and a result was kept. */
  lemma {:induction false} ShownIsTextOrPlaceholder(events: seq<ServerEvent>)
    ensures ShownConsistent(ApplyEvents(Start, events))
    ensures ApplyEvents(Start, events).content == Deltas(events)
  {
    ContentIsDeltas(Start, events);
    if events != [] {
      ShownIsTextOrPlaceholder(events[..|events| - 1]);
    }
  }

  /** What `done` leaves in the message: the placeholder for the first kept result's tool
      when no text arrived and some result was kept, and the streamed text otherwise. */
  lemma DoneShowsPlaceholder(events: seq<ServerEvent>)
    ensures MessageText(ApplyEvents(Start, events + [DoneEvent]).shown) ==
      if Deltas(events) == "" && Kept(events) != [] then Placeholder(Kept(events)[0].toolName)
      else Deltas(events)
  {
    ShownIsTextOrPlaceholder(events);
    ResultsAreKept(Start, events);
    assert (events + [DoneEvent])[..|events|] == events;
  }

  // ===========================================================================
  // The wire format the decoder reads

  /** One event as the server frames it: `event: <tag>`, `data: <payload>`, blank line. */
  datatype WireEvent = WireEvent(tag: string, payload: string)

  /** A field value that survives the round trip: non-empty, one line, no surrounding
      white space. */
  predicate WellFormedValue(v: string)
  {
    v != [] && '\n' !in v && !IsJsSpace(v[0]) && !IsJsSpace(v[|v| - 1])
  }

  function EncodeRecord(w: WireEvent): string
  {
    "event: " + w.tag + "\n" + "data: " + w.payload
  }

  function EncodeAll(ws: seq<WireEvent>): string
  {
    if ws == [] then "" else EncodeAll(ws[..|ws| - 1]) + EncodeRecord(ws[|ws| - 1]) + Delimiter
  }

  function RecordsOf(ws: seq<WireEvent>): seq<string>
  {
    if ws == [] then [] else RecordsOf(ws[..|ws| - 1]) + [EncodeRecord(ws[|ws| - 1])]
  }

  /** The events the payloads parse to, in order. */
  function Parsed(ws: seq<WireEvent>, parse: string -> Option<ServerEvent>): seq<ServerEvent>
  {
    if ws == [] then []
    else
      var last := parse(ws[|ws| - 1].payload);
      Parsed(ws[..|ws| - 1], parse) + if last.Some? then [last.value] else []
  }

  lemma EncodedIsRecord(w: WireEvent)
    requires WellFormedValue(w.tag) && WellFormedValue(w.payload)
    ensures IsRecord(EncodeRecord(w))
  {
    var r := EncodeRecord(w);
    var n := 7 + |w.tag|;
    assert r[n] == '\n' && r[n + 1] == 'd';
    forall j | 0 <= j < |r| ensures !DelimiterAt(r, j) {
      if j < 7 {
        assert r[j] == "event: "[j];
      } else if j < n {
        assert r[j] == w.tag[j - 7];
      } else if j > n {
        assert r[j] == ("data: " + w.payload)[j - n - 1];
        if j - n - 1 >= 6 {
          assert r[j] == w.payload[j - n - 7];
        }
      }
    }
    assert r[|r| - 1] == w.payload[|w.payload| - 1];
  }

  /** An encoded record is two lines. */
  lemma SplitEncoded(w: WireEvent)
    requires WellFormedValue(w.tag) && WellFormedValue(w.payload)
    ensures Split(EncodeRecord(w), '\n') == ["event: " + w.tag, "data: " + w.payload]
  {
    var first := "event: " + w.tag;
    var second := "data: " + w.payload;
    assert EncodeRecord(w) == first + ['\n'] + second;
    assert '\n' !in "event: " && '\n' !in "data: ";
    SplitAtSeparator(first, '\n', second);
    SplitWithoutSeparator(second, '\n');
  }

  /** The `event:` line is the last line carrying that field. */
  lemma EventLineRead(tag: string, payload: string)
    requires WellFormedValue(tag) && WellFormedValue(payload)
    ensures LastField(["event: " + tag, "data: " + payload], "event:") == Trim(" " + tag)
  {
    var first := "event: " + tag;
    var second := "data: " + payload;
    var lines := [first, second];
    assert !StartsWith(second, "event:") by { assert second[0] == 'd'; }
    assert lines[..1] == [first];
    assert first[..6] == "event:";
    assert first[6..] == " " + tag;
  }

  /** The `data:` line is the last line carrying that field. */
  lemma DataLineRead(tag: string, payload: string)
    requires WellFormedValue(tag) && WellFormedValue(payload)
    ensures LastField(["event: " + tag, "data: " + payload], "data:") == Trim(" " + payload)
  {
    var second := "data: " + payload;
    assert second[..5] == "data:";
    assert second[5..] == " " + payload;
  }

  /** The decoder reads back the tag and payload the server wrote. */
  lemma FieldsOfEncoded(w: WireEvent)
    requires WellFormedValue(w.tag) && WellFormedValue(w.payload)
    ensures FieldsOf(EncodeRecord(w)) == RecordFields(w.tag, w.payload)
  {
    SplitEncoded(w);
    EventLineRead(w.tag, w.payload);
    DataLineRead(w.tag, w.payload);
    TrimAfterSpace(w.tag);
    TrimAfterSpace(w.payload);
  }

  /** One more record extends the folded events by the event it carries, if any. */
  lemma FoldOneMore(f: Fold, rs: seq<string>, es: seq<ServerEvent>, r: string, parse: string -> Option<ServerEvent>)
    requires ProcessRecords(f, rs, parse) == ApplyEvents(f, es)
    ensures ProcessRecords(f, rs + [r], parse)
            == ApplyEvents(f, es + if EventOf(r, parse).Some? then [EventOf(r, parse).value] else [])
  {
    assert (rs + [r])[..|rs|] == rs;
    if EventOf(r, parse).Some? {
      assert (es + [EventOf(r, parse).value])[..|es|] == es;
    } else {
      assert es + [] == es;
    }
  }

  /** The event an encoded record carries is what its payload parses to. */
  lemma EventOfEncoded(w: WireEvent, parse: string -> Option<ServerEvent>)
    requires WellFormedValue(w.tag) && WellFormedValue(w.payload)
    ensures EventOf(EncodeRecord(w), parse) == parse(w.payload)
  {
    FieldsOfEncoded(w);
  }

  lemma {:induction false} EncodeAllUnframes(ws: seq<WireEvent>)
    ensures Unframe(RecordsOf(ws), "") == EncodeAll(ws)
  {
    if ws != [] {
      var init := ws[..|ws| - 1];
      var r := EncodeRecord(ws[|ws| - 1]);
      EncodeAllUnframes(init);
      UnframeAppend(RecordsOf(init), [r], "");
      assert [r][1..] == [];
      assert Unframe([r], "") == r + Delimiter;
      UnframeExtend(RecordsOf(init), "", r + Delimiter);
      assert "" + (r + Delimiter) == r + Delimiter;
      assert EncodeAll(ws) == EncodeAll(init) + (r + Delimiter);
    }
  }

  lemma {:induction false} FoldEncoded(f: Fold, ws: seq<WireEvent>, parse: string -> Option<ServerEvent>)
    requires forall k :: 0 <= k < |ws| ==> WellFormedValue(ws[k].tag) && WellFormedValue(ws[k].payload)
    ensures ProcessRecords(f, RecordsOf(ws), parse) == ApplyEvents(f, Parsed(ws, parse))
  {
    if ws != [] {
      var init := ws[..|ws| - 1];
      var w := ws[|ws| - 1];
      FoldEncoded(f, init, parse);
      EventOfEncoded(w, parse);
      FoldOneMore(f, RecordsOf(init), Parsed(init, parse), EncodeRecord(w), parse);
    }
  }

  lemma {:induction false} EncodedRecords(ws: seq<WireEvent>)
    requires forall k :: 0 <= k < |ws| ==> WellFormedValue(ws[k].tag) && WellFormedValue(ws[k].payload)
    ensures |RecordsOf(ws)| == |ws|
    ensures forall k :: 0 <= k < |ws| ==> RecordsOf(ws)[k] == EncodeRecord(ws[k]) && IsRecord(RecordsOf(ws)[k])
  {
    if ws != [] {
      var init := ws[..|ws| - 1];
      EncodedRecords(init);
      EncodedIsRecord(ws[|ws| - 1]);
      assert RecordsOf(ws) == RecordsOf(init) + [EncodeRecord(ws[|ws| - 1])];
      forall k | 0 <= k < |ws|
        ensures RecordsOf(ws)[k] == EncodeRecord(ws[k]) && IsRecord(RecordsOf(ws)[k])
      {
        if k < |init| {
          assert RecordsOf(ws)[k] == RecordsOf(init)[k] && ws[k] == init[k];
        }
      }
    }
  }

  /** Decoding what the server encodes: a stream of well-formed records, read in any
      chunks, folds exactly the events its payloads parse to and leaves the buffer empty. */
  lemma DecodeEncoded(f: Fold, ws: seq<WireEvent>, chunks: seq<string>, parse: string -> Option<ServerEvent>)
    requires forall k :: 0 <= k < |ws| ==> WellFormedValue(ws[k].tag) && WellFormedValue(ws[k].payload)
    requires Concat(chunks) == EncodeAll(ws)
    ensures ReceiveAll(DecoderState("", f), chunks, parse) == DecoderState("", ApplyEvents(f, Parsed(ws, parse)))
  {
    ChunkingInvariant(DecoderState("", f), chunks, parse);
    EncodeAllUnframes(ws);
    EncodedRecords(ws);
    FoldEncoded(f, ws, parse);
    FrameUnique(RecordsOf(ws), "");
    assert "" + EncodeAll(ws) == EncodeAll(ws);
  }

  // ===========================================================================
  // The reader loop itself

  /** One pass of the reader loop: the first record comes off the front of the buffer. */
  lemma FrameStep(b: string, i: nat)
    requires IndexOfDelimiter(b) == Some(i)
    ensures Frame(b).records == [b[..i]] + Frame(b[i + 2..]).records
    ensures Frame(b).rest == Frame(b[i + 2..]).rest
  {
    var tail := Frame(b[i + 2..]);
    assert Frame(b) == Framed([b[..i]] + tail.records, tail.rest);
  }

  /** The loop ends when no delimiter is left: everything is tail. */
  lemma FrameDone(b: string)
    requires IndexOfDelimiter(b).None?
    ensures Frame(b) == Framed([], b)
  {
  }

  /** Handling one more record after a run of records. */
  lemma ProcessRecordsSnoc(f: Fold, rs: seq<string>, r: string, parse: string -> Option<ServerEvent>)
    ensures ProcessRecords(f, rs + [r], parse) == ProcessRecord(ProcessRecords(f, rs, parse), r, parse)
  {
    assert (rs + [r])[..|rs|] == rs;
  }

  /** `chunk.split("\n")` and the `for (const line of lines)` loop that keeps the trimmed
      value of the last `event:` line and of the last `data:` line. */
  method ScanFields(record: string) returns (fields: RecordFields)
    ensures fields == FieldsOf(record)
  {
    var lines := Split(record, '\n');
    var eventType, dataLine := "", "";
    for i := 0 to |lines|
      invariant eventType == LastField(lines[..i], "event:")
      invariant dataLine == LastField(lines[..i], "data:")
    {
      assert lines[..i + 1][..i] == lines[..i];
      if StartsWith(lines[i], "event:") {
        eventType := Trim(lines[i][6..]);
      }
      if StartsWith(lines[i], "data:") {
        dataLine := Trim(lines[i][5..]);
      }
    }
    assert lines[..|lines|] == lines;
    fields := RecordFields(eventType, dataLine);
  }

  /** The state the reader loop of `send` keeps across reads: the buffer and the
      accumulators. `Feed` is one pass of the outer `while (true)` loop after
      `reader.read()` delivered `chunk`. */
  class Decoder {
    /** `JSON.parse` followed by the dispatch on the payload's `type` field. */
    const parse: string -> Option<ServerEvent>
    var buffer: string
    var assistantContent: string
    var currentToolCalls: seq<ToolCall>
    var currentToolResults: seq<ShownResult>
    /** The content last written into the assistant message. */
    var shown: Shown
    /** The error banner. */
    var notice: Option<string>

    function Accumulated(): Fold
      reads this
    {
      Fold(assistantContent, currentToolCalls, currentToolResults, shown, notice)
    }

    function State(): DecoderState
      reads this
    {
      DecoderState(buffer, Accumulated())
    }

    /** Between reads the buffer never holds a complete record. */
    ghost predicate Valid()
      reads this
    {
      !HasDelimiter(buffer)
    }

    constructor (parse: string -> Option<ServerEvent>)
      ensures this.parse == parse
      ensures Valid() && State() == DecoderState("", Start)
    {
      this.parse := parse;
      buffer := "";
      assistantContent := "";
      currentToolCalls := [];
      currentToolResults := [];
      shown := Streamed("");
      notice := None;
    }

    /** Appends `chunk` and folds in every complete record, oldest first; the
        unterminated tail stays in the buffer. */
    method Feed(chunk: string)
      requires Valid()
      modifies this
      ensures Valid()
      ensures State() == Receive(old(State()), chunk, parse)
    {
      var rest, fold := Drain(buffer + chunk, Accumulated(), parse);
      buffer := rest;
      assistantContent := fold.content;
      currentToolCalls := fold.toolCalls;
      currentToolResults := fold.toolResults;
      shown := fold.shown;
      notice := fold.notice;
    }
  }

  /** The inner `while ((idx = buffer.indexOf("\n\n")) !== -1)` loop: cut the first
      record off the buffer and handle it, until no delimiter is left. */
  method Drain(buffer0: string, fold0: Fold, parse: string -> Option<ServerEvent>)
    returns (buffer: string, fold: Fold)
    ensures buffer == Frame(buffer0).rest && !HasDelimiter(buffer)
    ensures fold == ProcessRecords(fold0, Frame(buffer0).records, parse)
  {
    buffer, fold := buffer0, fold0;
    ghost var cut: seq<string> := [];
    while true
      invariant Frame(buffer0).records == cut + Frame(buffer).records
      invariant Frame(buffer0).rest == Frame(buffer).rest
      invariant fold == ProcessRecords(fold0, cut, parse)
      decreases |buffer|
    {
      var idx := IndexOfDelimiter(buffer);
      if idx.None? {
        FrameDone(buffer);
        assert cut + [] == cut;
        assert Frame(buffer0).records == cut && Frame(buffer0).rest == buffer;
        break;
      }
      var record := buffer[..idx.value];
      var next := buffer[idx.value + 2..];
      FrameStep(buffer, idx.value);
      assert Frame(buffer0).records == (cut + [record]) + Frame(next).records;
      ProcessRecordsSnoc(fold0, cut, record, parse);
      fold := HandleRecord(fold, record, parse);
      buffer := next;
      cut := cut + [record];
    }
  }

  /** One record: the field scan, the guard on empty fields, `JSON.parse` (a record whose
      payload does not parse is skipped) and the dispatch. */
  method HandleRecord(fold0: Fold, record: string, parse: string -> Option<ServerEvent>) returns (fold: Fold)
    ensures fold == ProcessRecord(fold0, record, parse)
  {
    fold := fold0;
    var fields := ScanFields(record);
    if fields.eventType == "" || fields.dataLine == "" {
      return;
    }
    var evt := parse(fields.dataLine);
    if evt.None? {
      return;
    }
    fold := HandleEvent(fold, evt.value);
  }

  /** The `if`/`else if` chain on `evt.type`. A result is attached in place to the
      earliest call of that tool still without one (`findIndex`). */
  method HandleEvent(fold0: Fold, evt: ServerEvent) returns (fold: Fold)
    ensures fold == ApplyEvent(fold0, evt)
  {
    fold := fold0;
    match evt
    case TextDelta(delta) =>
      fold := fold.(content := fold.content + delta);
      fold := fold.(shown := Streamed(fold.content));
    case ToolCallEvent(name, input) =>
      fold := fold.(toolCalls := fold.toolCalls + [ToolCall(name, input, None)]);
    case ToolResultEvent(name, ok, data, error) =>
      var callIndex := FindUnresolved(fold.toolCalls, name);
      if callIndex.Some? {
        var calls := fold.toolCalls;
        calls := calls[callIndex.value := calls[callIndex.value].(result := Some(CallOutcome(ok, error)))];
        fold := fold.(toolCalls := calls);
      }
      if ok && Truthy(data) {
        fold := fold.(toolResults := fold.toolResults + [ShownResult(name, data)]);
      }
    case ErrorEvent(message) =>
      fold := fold.(notice := Some(message));
    case DoneEvent =>
      if fold.content == "" && |fold.toolResults| > 0 {
        fold := fold.(shown := Canned(fold.toolResults[0].toolName));
      }
  }
}
