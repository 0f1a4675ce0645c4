/**
 Server-sent events, written by apps/api/src/routes/events.ts and read back by apps/web/src/lib/api/client.ts
 (section 9.2 of the WHATWG HTML Living Standard).

 A payload is kept as its JSON text.
 */
module Sse {
  import opened Prelude
  import opened Sorting
  import opened Decimal

  datatype Message = Message(event: string, data: string)

  // ----------------------------------------------------------------- reading

  /** The length of the record separator (two line ends, each with an optional CR) that `s` starts with, or 0. */
  function SeparatorLength(s: string): (n: nat)
    ensures n <= |s| && (n == 0 || 2 <= n <= 4)
  {
    var a := if |s| > 0 && s[0] == '\r' then 1 else 0;
    if a >= |s| || s[a] != '\n' then 0
    else
      var b := if a + 1 < |s| && s[a + 1] == '\r' then a + 2 else a + 1;
      if b < |s| && s[b] == '\n' then b + 1 else 0
  }

  /** Where the first separator of `s` starts, or the end of `s`. */
  function FindSeparator(s: string): (p: nat)
    ensures p <= |s|
    ensures p < |s| ==> SeparatorLength(s[p..]) > 0
  {
    if s == "" || SeparatorLength(s) > 0 then 0 else 1 + FindSeparator(s[1..])
  }

  /** The text cut at every separator; the last part is not terminated by one. */
  function Records(s: string): (r: seq<string>)
    ensures r != []
    decreases |s|
  {
    var p := FindSeparator(s);
    if p == |s| then [s] else [s[..p]] + Records(s[p + SeparatorLength(s[p..])..])
  }

  function Complete(s: string): seq<string> {
    Records(s)[..|Records(s)| - 1]
  }

  function Leftover(s: string): string {
    Records(s)[|Records(s)| - 1]
  }

  /** The lines of a record. */
  function Lines(s: string): seq<string> {
    if s == "" then [""]
    else if s[0] == '\n' then [""] + Lines(s[1..])
    else if s[0] == '\r' && |s| > 1 && s[1] == '\n' then [""] + Lines(s[2..])
    else
      var rest := Lines(s[1..]);
      [[s[0]] + (if rest == [] then "" else rest[0])] + (if rest == [] then [] else rest[1..])
  }

  /** White space as `trim` understands it. */
  predicate IsSpace(c: char) {
    var n := c as int;
    || 9 <= n <= 13 || n == 0x20 || n == 0xA0 || n == 0x1680 || 0x2000 <= n <= 0x200A || n == 0x2028 || n == 0x2029
    || n == 0x202F || n == 0x205F || n == 0x3000 || n == 0xFEFF
  }

  function TrimStart(s: string): string {
    if s != "" && IsSpace(s[0]) then TrimStart(s[1..]) else s
  }

  function TrimEnd(s: string): string {
    if s != "" && IsSpace(s[|s| - 1]) then TrimEnd(s[..|s| - 1]) else s
  }

  /** The value of the first `event:` line, trimmed, or nothing. */
  function EventField(lines: seq<string>): Option<string> {
    if lines == [] then None
    else if "event:" <= lines[0] then Some(TrimEnd(TrimStart(lines[0][6..])))
    else EventField(lines[1..])
  }

  /** The values of the `data:` lines. */
  function DataFields(lines: seq<string>): seq<string> {
    if lines == [] then []
    else if "data:" <= lines[0] then [TrimStart(lines[0][5..])] + DataFields(lines[1..])
    else DataFields(lines[1..])
  }

  function JoinLines(parts: seq<string>): string {
    if parts == [] then "" else if |parts| == 1 then parts[0] else parts[0] + "\n" + JoinLines(parts[1..])
  }

  /** A record is a message when it names an event and carries data. */
  function Deframe(record: string): (found: seq<Message>)
    ensures |found| <= 1
  {
    var event, data := EventField(Lines(record)), JoinLines(DataFields(Lines(record)));
    if event.Some? && event.value != "" && data != "" then [Message(event.value, data)] else []
  }

  function DeframeAll(records: seq<string>): seq<Message> {
    if records == [] then [] else Deframe(records[0]) + DeframeAll(records[1..])
  }

  /** The messages of a whole text: its unterminated end is dropped. */
  function Messages(text: string): seq<Message> {
    DeframeAll(Complete(text))
  }

  lemma {:induction false} DeframeAppend(a: seq<string>, b: seq<string>)
    ensures DeframeAll(a + b) == DeframeAll(a) + DeframeAll(b)
  {
    if a == [] {
      assert a + b == b;
    } else {
      assert (a + b)[0] == a[0] && (a + b)[1..] == a[1..] + b;
      DeframeAppend(a[1..], b);
    }
  }

  lemma OneMoreRecord(records: seq<string>, k: nat)
    requires k < |records|
    ensures DeframeAll(records[..k + 1]) == DeframeAll(records[..k]) + Deframe(records[k])
  {
    assert records[..k + 1] == records[..k] + [records[k]];
    DeframeAppend(records[..k], [records[k]]);
    assert DeframeAll([records[k]]) == Deframe(records[k]) + DeframeAll([]);
  }

  // ------------------------------------------------- cutting and being cut

  lemma SeparatorStays(a: string, b: string)
    requires SeparatorLength(a) > 0
    ensures SeparatorLength(a + b) == SeparatorLength(a)
  {
  }

  /** A separator that only more text completes leaves no room for a separator inside the text there is. */
  lemma SplitSeparator(a: string, b: string)
    requires a != "" && SeparatorLength(a) == 0 && SeparatorLength(a + b) > 0
    ensures FindSeparator(a[1..]) == |a| - 1
  {
    assert |a| <= 3;
    assert forall i :: 0 <= i < |a| ==> (a + b)[i] == a[i];
    if |a| == 2 {
      assert a[1..][1..] == "";
    } else if |a| == 3 {
      assert a[1..][1..][1..] == "";
    }
  }

  /** The first separator is found again when more text follows. */
  lemma {:induction false} FirstSeparatorStays(a: string, b: string)
    requires FindSeparator(a) < |a|
    ensures FindSeparator(a + b) == FindSeparator(a)
    ensures SeparatorLength((a + b)[FindSeparator(a)..]) == SeparatorLength(a[FindSeparator(a)..])
  {
    var p := FindSeparator(a);
    assert (a + b)[p..] == a[p..] + b;
    SeparatorStays(a[p..], b);
    if p > 0 {
      assert (a + b)[1..] == a[1..] + b;
      FirstSeparatorStays(a[1..], b);
      if SeparatorLength(a + b) > 0 {
        SplitSeparator(a, b);
      }
    }
  }

  /** The text after the first record. */
  function AfterFirst(s: string): string
    requires FindSeparator(s) < |s|
  {
    s[FindSeparator(s) + SeparatorLength(s[FindSeparator(s)..])..]
  }

  lemma {:induction false} RecordsUnfold(s: string)
    requires FindSeparator(s) < |s|
    ensures Records(s) == [s[..FindSeparator(s)]] + Records(AfterFirst(s))
  {
    hide FindSeparator, SeparatorLength;
  }

  lemma OneMoreInFront(first: string, rest: seq<string>)
    requires rest != []
    ensures ([first] + rest)[..|[first] + rest| - 1] == [first] + rest[..|rest| - 1]
    ensures ([first] + rest)[|[first] + rest| - 1] == rest[|rest| - 1]
  {
  }

  lemma {:induction false} FirstRecord(s: string)
    requires FindSeparator(s) < |s|
    ensures Records(s) == [s[..FindSeparator(s)]] + Records(AfterFirst(s))
    ensures Complete(s) == [s[..FindSeparator(s)]] + Complete(AfterFirst(s))
    ensures Leftover(s) == Leftover(AfterFirst(s))
  {
    hide FindSeparator, SeparatorLength, Records, AfterFirst;
    RecordsUnfold(s);
    OneMoreInFront(s[..FindSeparator(s)], Records(AfterFirst(s)));
  }

  lemma {:induction false} NoRecord(s: string)
    requires FindSeparator(s) == |s|
    ensures Records(s) == [s] && Complete(s) == [] && Leftover(s) == s
  {
    hide FindSeparator, SeparatorLength;
  }

  lemma NothingYet()
    ensures Messages("") == [] && Leftover("") == ""
  {
    NoRecord("");
  }

  lemma {:induction false} FirstRecordStays(a: string, b: string)
    requires FindSeparator(a) < |a|
    ensures FindSeparator(a + b) == FindSeparator(a) && (a + b)[..FindSeparator(a)] == a[..FindSeparator(a)]
    ensures AfterFirst(a + b) == AfterFirst(a) + b
  {
    FirstSeparatorStays(a, b);
    hide FindSeparator, SeparatorLength;
  }

  /** Text that arrives later changes only the record that was still open. */
  lemma {:induction false} CutAnywhere(a: string, b: string)
    ensures Records(a + b) == Complete(a) + Records(Leftover(a) + b)
    decreases |a|
  {
    hide Records, Complete, Leftover, FindSeparator;
    if FindSeparator(a) < |a| {
      FirstRecord(a);
      FirstRecordStays(a, b);
      FirstRecord(a + b);
      CutAnywhere(AfterFirst(a), b);
    } else {
      NoRecord(a);
    }
  }

  lemma MessagesSoFar(a: string, b: string)
    ensures Messages(a + b) == Messages(a) + Messages(Leftover(a) + b)
    ensures Leftover(a + b) == Leftover(Leftover(a) + b)
  {
    hide Records, DeframeAll, FindSeparator;
    CutAnywhere(a, b);
    assert Complete(a + b) == Complete(a) + Complete(Leftover(a) + b);
    DeframeAppend(Complete(a), Complete(Leftover(a) + b));
  }

  function Joined(chunks: seq<string>): string {
    if chunks == [] then "" else Joined(chunks[..|chunks| - 1]) + chunks[|chunks| - 1]
  }

  predicate AllJson(messages: seq<Message>, isJson: string -> bool) {
    forall m | m in messages :: isJson(m.data)
  }

  /** The messages before the first whose data is not JSON. */
  function Delivered(messages: seq<Message>, isJson: string -> bool): seq<Message> {
    if messages == [] || !isJson(messages[0].data) then [] else [messages[0]] + Delivered(messages[1..], isJson)
  }

  lemma {:induction false} DeliveredUpTo(good: seq<Message>, rest: seq<Message>, isJson: string -> bool)
    requires AllJson(good, isJson)
    ensures Delivered(good + rest, isJson) == good + Delivered(rest, isJson)
  {
    if good == [] {
      assert good + rest == rest;
    } else {
      assert good[0] in good && (good + rest)[0] == good[0] && (good + rest)[1..] == good[1..] + rest;
      DeliveredUpTo(good[1..], rest, isJson);
    }
  }

  /** The first message that is not JSON decides. */
  lemma FirstBad(all: seq<Message>, good: seq<Message>, bad: Message, isJson: string -> bool)
    requires good + [bad] <= all && AllJson(good, isJson) && !isJson(bad.data)
    ensures Delivered(all, isJson) == good && !AllJson(all, isJson)
  {
    var rest := all[|good|..];
    assert all == good + rest && rest[0] == bad && all[|good|] == bad;
    DeliveredUpTo(good, rest, isJson);
  }

  /** What has arrived is never taken back. */
  lemma {:induction false} MessagesGrow(chunks: seq<string>, i: nat)
    requires i <= |chunks|
    ensures Messages(Joined(chunks[..i])) <= Messages(Joined(chunks))
    decreases |chunks| - i
  {
    if i == |chunks| {
      assert chunks[..i] == chunks;
    } else {
      MessagesGrow(chunks, i + 1);
      assert chunks[..i + 1][..i] == chunks[..i];
      MessagesSoFar(Joined(chunks[..i]), chunks[i]);
    }
  }

  /** Hand over the messages of complete records, up to the first whose data is not JSON. */
  method DeliverRecords(records: seq<string>, isJson: string -> bool) returns (messages: seq<Message>, failed: bool)
    ensures messages == Delivered(DeframeAll(records), isJson)
    ensures failed <==> !AllJson(DeframeAll(records), isJson)
  {
    hide Deframe, Delivered;
    messages := [];
    NothingDelivered(isJson);
    for k := 0 to |records|
      invariant messages == DeframeAll(records[..k]) && AllJson(messages, isJson)
    {
      OneMoreRecord(records, k);
      RecordsGrow(records, k + 1);
      var found := Deframe(records[k]);
      if found != [] && !isJson(found[0].data) {
        FirstBad(DeframeAll(records), messages, found[0], isJson);
        return messages, true;
      }
      messages := messages + found;
    }
    assert records[..|records|] == records && messages + [] == messages;
    DeliveredUpTo(messages, [], isJson);
    return messages, false;
  }

  lemma RecordsGrow(records: seq<string>, k: nat)
    requires k <= |records|
    ensures DeframeAll(records[..k]) <= DeframeAll(records)
  {
    assert records == records[..k] + records[k..];
    DeframeAppend(records[..k], records[k..]);
  }

  /** A failure among the messages so far is the failure of the whole text. */
  lemma FailsEarly(all: seq<Message>, soFar: seq<Message>, isJson: string -> bool)
    requires soFar <= all && !AllJson(soFar, isJson)
    ensures Delivered(all, isJson) == Delivered(soFar, isJson) && !AllJson(all, isJson)
  {
    assert all == soFar + all[|soFar|..];
    DeliveredStops(soFar, all[|soFar|..], isJson);
    assert forall m | m in soFar :: m in all;
  }

  lemma {:induction false} DeliveredStops(bad: seq<Message>, rest: seq<Message>, isJson: string -> bool)
    requires !AllJson(bad, isJson)
    ensures Delivered(bad + rest, isJson) == Delivered(bad, isJson)
  {
    assert (bad + rest)[0] == bad[0] && (bad + rest)[1..] == bad[1..] + rest;
    if isJson(bad[0].data) {
      assert forall m | m in bad :: m == bad[0] || m in bad[1..];
      DeliveredStops(bad[1..], rest, isJson);
    }
  }

  /**
   The read loop: however the text is cut into chunks, it delivers the messages of the whole text, and fails at the
   first whose data is not JSON.
   */
  method StreamCommand(chunks: seq<string>, isJson: string -> bool) returns (messages: seq<Message>, failed: bool)
    ensures messages == Delivered(Messages(Joined(chunks)), isJson)
    ensures failed <==> !AllJson(Messages(Joined(chunks)), isJson)
    ensures !failed ==> messages == Messages(Joined(chunks))
  {
    hide Records, Deframe, FindSeparator, Delivered, AllJson;
    NothingYet();
    messages := [];
    NothingFailed(isJson);
    var buffer := "";
    for i := 0 to |chunks|
      invariant messages == Messages(Joined(chunks[..i])) && AllJson(messages, isJson)
      invariant buffer == Leftover(Joined(chunks[..i]))
    {
      assert chunks[..i + 1][..i] == chunks[..i];
      MessagesSoFar(Joined(chunks[..i]), chunks[i]);
      MessagesGrow(chunks, i + 1);
      buffer := buffer + chunks[i];
      var records := Records(buffer);
      ghost var soFar := messages;
      ghost var arrived := DeframeAll(records[..|records| - 1]);
      var more, bad := DeliverRecords(records[..|records| - 1], isJson);
      buffer := records[|records| - 1];
      JoinedDelivery(soFar, arrived, isJson);
      messages := messages + more;
      if bad {
        FailsEarly(Messages(Joined(chunks)), soFar + arrived, isJson);
        return messages, true;
      }
    }
    assert chunks[..|chunks|] == chunks && messages + [] == messages;
    DeliveredUpTo(messages, [], isJson);
    NothingDelivered(isJson);
    return messages, false;
  }

  /** Delivering what has arrived after what was delivered. */
  lemma JoinedDelivery(good: seq<Message>, arrived: seq<Message>, isJson: string -> bool)
    requires AllJson(good, isJson)
    ensures Delivered(good + arrived, isJson) == good + Delivered(arrived, isJson)
    ensures AllJson(good + arrived, isJson) <==> AllJson(arrived, isJson)
    ensures AllJson(arrived, isJson) ==> Delivered(arrived, isJson) == arrived
  {
    DeliveredUpTo(good, arrived, isJson);
    assert forall m :: m in good + arrived <==> m in good || m in arrived;
    if AllJson(arrived, isJson) {
      DeliveredUpTo(arrived, [], isJson);
      assert arrived + [] == arrived;
    }
  }

  lemma NothingFailed(isJson: string -> bool)
    ensures AllJson([], isJson)
  {
  }

  lemma NothingDelivered(isJson: string -> bool)
    ensures Delivered([], isJson) == []
  {
  }

  // ----------------------------------------------------------------- writing

  /** A projection event: `payload` is the JSON text of the whole event. */
  datatype Event = Event(id: string, kind: string, payload: string)

  predicate NumberedNotLater(a: Event, b: Event) {
    Value(a.id) <= Value(b.id)
  }

  /** Decimal ids are compared as numbers, and others by the locale's order `collate`. */
  predicate NotLater(a: Event, b: Event, collate: (string, string) -> bool) {
    if IsDecimal(a.id) && IsDecimal(b.id) then NumberedNotLater(a, b) else collate(a.id, b.id)
  }

  /** With decimal ids, what the sort leaves is in numeric order. */
  function InIdOrder(events: seq<Event>): (r: seq<Event>)
    ensures multiset(r) == multiset(events)
    ensures forall i, j :: 0 <= i < j < |r| ==> Value(r[i].id) <= Value(r[j].id)
  {
    Sort(events, NumberedNotLater)
  }

  function Body(e: Event): string {
    "id: " + e.id + ("\n" + ("event: " + e.kind + ("\n" + ("data: " + e.payload))))
  }

  /** The text of a batch, in the order in which the sort left it. */
  function FormatSseBatch(sorted: seq<Event>): string {
    if sorted == [] then "" else Body(sorted[0]) + ("\n\n" + FormatSseBatch(sorted[1..]))
  }

  predicate NoLineEnd(s: string) {
    '\r' !in s && '\n' !in s
  }

  /** What an event must be like to fit in its frame: JSON text and the names of events are. */
  predicate FitsFrame(e: Event) {
    && NoLineEnd(e.id) && NoLineEnd(e.kind) && NoLineEnd(e.payload)
    && e.kind != "" && !IsSpace(e.kind[0]) && !IsSpace(e.kind[|e.kind| - 1])
    && e.payload != "" && !IsSpace(e.payload[0])
  }

  lemma {:induction false} SkipText(s: string, u: string)
    requires NoLineEnd(s)
    ensures FindSeparator(s + u) == |s| + FindSeparator(u)
  {
    if s == "" {
      assert s + u == u;
    } else {
      assert (s + u)[0] == s[0] && s[0] in s;
      assert (s + u)[1..] == s[1..] + u;
      SkipText(s[1..], u);
    }
  }

  lemma {:induction false} SkipLineEnd(u: string)
    requires u != "" && u[0] != '\r' && u[0] != '\n'
    ensures FindSeparator("\n" + u) == 1 + FindSeparator(u)
  {
    assert ("\n" + u)[1..] == u;
  }

  lemma {:induction false} LinesOfText(s: string, u: string)
    requires NoLineEnd(s)
    ensures Lines(s) == [s]
    ensures Lines(s + ("\n" + u)) == [s] + Lines(u)
  {
    if s == "" {
      assert s + ("\n" + u) == "\n" + u;
      assert ("\n" + u)[1..] == u;
    } else {
      assert s[0] in s && (s + ("\n" + u))[0] == s[0];
      assert (s + ("\n" + u))[1..] == s[1..] + ("\n" + u);
      LinesOfText(s[1..], u);
      assert [s[0]] + s[1..] == s;
    }
  }

  /** Single line ends between plain pieces make no separator. */
  lemma {:induction false} SkipThreeLines(a: string, b: string, c: string, tail: string)
    requires NoLineEnd(a) && NoLineEnd(b) && NoLineEnd(c) && b != "" && c != ""
    ensures FindSeparator(a + ("\n" + (b + ("\n" + (c + tail))))) == |a| + 1 + |b| + 1 + |c| + FindSeparator(tail)
  {
    hide FindSeparator;
    assert b[0] in b && c[0] in c;
    SkipText(c, tail);
    SkipLineEnd(c + tail);
    SkipText(b, "\n" + (c + tail));
    SkipLineEnd(b + ("\n" + (c + tail)));
    SkipText(a, "\n" + (b + ("\n" + (c + tail))));
  }

  lemma Regroup(a: string, b: string, c: string, tail: string)
    ensures (a + ("\n" + (b + ("\n" + c)))) + tail == a + ("\n" + (b + ("\n" + (c + tail))))
  {
  }

  lemma {:induction false} SeparatorAfterBody(e: Event, rest: string)
    requires FitsFrame(e)
    ensures FindSeparator(Body(e) + ("\n\n" + rest)) == |Body(e)|
  {
    hide FindSeparator, IsSpace;
    var id, event, data := "id: " + e.id, "event: " + e.kind, "data: " + e.payload;
    NoSeparatorLeft(rest);
    SkipThreeLines(id, event, data, "\n\n" + rest);
    Regroup(id, event, data, "\n\n" + rest);
  }

  lemma {:induction false} NoSeparatorLeft(rest: string)
    ensures FindSeparator("\n\n" + rest) == 0 && SeparatorLength("\n\n" + rest) == 2
  {
  }

  lemma {:induction false} TrimOne(s: string)
    requires s != "" && !IsSpace(s[0])
    ensures TrimStart(" " + s) == s
    ensures !IsSpace(s[|s| - 1]) ==> TrimEnd(s) == s
  {
    assert (" " + s)[1..] == s;
  }

  /** One framed event is read back as its name and its payload. */
  lemma DeframeBody(e: Event)
    requires FitsFrame(e)
    ensures Deframe(Body(e)) == [Message(e.kind, e.payload)]
  {
    var id, event, data := "id: " + e.id, "event: " + e.kind, "data: " + e.payload;
    LinesOfText(id, event + ("\n" + data));
    LinesOfText(event, data);
    LinesOfText(data, "");
    assert Lines(Body(e)) == [id, event, data];
    TrimOne(e.kind);
    TrimOne(e.payload);
    FieldsOfThree(id, e.kind, e.payload);
  }

  lemma {:induction false} FieldsOfThree(id: string, kind: string, payload: string)
    requires "id: " <= id
    ensures var lines := [id, "event: " + kind, "data: " + payload];
      && EventField(lines) == Some(TrimEnd(TrimStart(" " + kind)))
      && DataFields(lines) == [TrimStart(" " + payload)]
  {
    var lines := [id, "event: " + kind, "data: " + payload];
    assert id[0] == 'i';
    assert ("event: " + kind)[6..] == " " + kind;
    assert ("data: " + payload)[5..] == " " + payload;
    assert lines[1..] == ["event: " + kind, "data: " + payload];
    assert lines[1..][1..] == ["data: " + payload];
    assert ("event: " + kind)[0] == 'e';
    assert ("data: " + payload)[0] == 'd';
    assert !("data:" <= lines[0]) && DataFields(lines) == DataFields(lines[1..]);
    assert !("data:" <= lines[1..][0]) && DataFields(lines[1..]) == DataFields(lines[1..][1..]);
    assert DataFields(lines[1..][1..]) == [TrimStart(" " + payload)] + DataFields(lines[1..][1..][1..]);
  }

  lemma FormattedRecord(e: Event, rest: string)
    requires FitsFrame(e)
    ensures Messages(Body(e) + ("\n\n" + rest)) == [Message(e.kind, e.payload)] + Messages(rest)
  {
    hide FindSeparator, SeparatorLength, Body, FitsFrame, Records, Complete, Deframe;
    var text := Body(e) + ("\n\n" + rest);
    SeparatorAfterBody(e, rest);
    NoSeparatorLeft(rest);
    assert text[|Body(e)|..] == "\n\n" + rest;
    assert text[..|Body(e)|] == Body(e);
    assert AfterFirst(text) == rest;
    FirstRecord(text);
    DeframeBody(e);
    DeframeAppend([Body(e)], Complete(rest));
    assert [Body(e)][1..] == [];
  }

  lemma {:induction false} FormattedAll(events: seq<Event>)
    requires forall e | e in events :: FitsFrame(e)
    ensures Messages(FormatSseBatch(events)) == Map((e: Event) => Message(e.kind, e.payload), events)
  {
    if events == [] {
      NothingYet();
    } else {
      hide Messages, Body, FitsFrame;
      assert events[0] in events;
      FormattedAll(events[1..]);
      FormattedRecord(events[0], FormatSseBatch(events[1..]));
    }
  }

  /** The order in which a sort with a consistent comparator leaves a batch. */
  ghost predicate IsSorted(sorted: seq<Event>, collate: (string, string) -> bool) {
    forall i, j :: 0 <= i < j < |sorted| ==> NotLater(sorted[i], sorted[j], collate)
  }

  /**
   Reading back a formatted batch gives the name and the payload of each event, in whatever order the sort left them;
   with decimal ids that is the numeric order.
   */
  lemma BatchRoundTrip(events: seq<Event>, sorted: seq<Event>, collate: (string, string) -> bool)
    requires multiset(sorted) == multiset(events) && forall e | e in events :: FitsFrame(e)
    ensures Messages(FormatSseBatch(sorted)) == Map((e: Event) => Message(e.kind, e.payload), sorted)
    ensures IsSorted(sorted, collate) && (forall e | e in events :: IsDecimal(e.id)) ==>
      forall i, j :: 0 <= i < j < |sorted| ==> Value(sorted[i].id) <= Value(sorted[j].id)
  {
    hide Messages, FormatSseBatch, FitsFrame, IsDecimal, Value;
    forall e | e in sorted ensures e in events {
      assert e in multiset(sorted) && e in multiset(events);
    }
    FormattedAll(sorted);
    if IsSorted(sorted, collate) && forall e | e in events :: IsDecimal(e.id) {
      forall i, j | 0 <= i < j < |sorted| ensures Value(sorted[i].id) <= Value(sorted[j].id) {
        assert sorted[i] in sorted && sorted[j] in sorted && NotLater(sorted[i], sorted[j], collate);
      }
    }
  }
}
