/** The chat store's reducer: what one streamed event does to the assistant's message on screen. */
module ChatStore {
  import opened Prelude
  import opened Wire

  datatype Status = Running | Completed | Failed

  datatype ToolCall = ToolCall(id: string, name: string, arguments: string, status: Status, result: Option<string>)

  datatype Message = Message(content: string, thinking: string, toolCalls: seq<ToolCall>)

  const EmptyMessage := Message("", "", [])

  /** A string property of an event's data; anything else reads as absent. */
  function Property(data: Json, key: string): string {
    if data.Obj? && key in data.fields && data.fields[key].Str? then data.fields[key].s else ""
  }

  function Flag(data: Json, key: string): bool {
    data.Obj? && key in data.fields && data.fields[key] == Bool(true)
  }

  function Or(a: string, b: string): string {
    if a != "" then a else b
  }

  predicate Matches(tc: ToolCall, id: string, name: string) {
    if id != "" then tc.id == id else tc.name == name && tc.status == Running
  }

  function Resolve(tc: ToolCall, data: Json): ToolCall {
    tc.(result := Some(Property(data, "content")),
        status := if Property(data, "status") == "error" || Flag(data, "is_error") then Failed else Completed)
  }

  function Finish(tc: ToolCall): ToolCall {
    if tc.status == Running then tc.(status := Completed) else tc
  }

  function NewCall(data: Json, now: string): ToolCall {
    ToolCall(Or(Property(data, "id"), Property(data, "name") + "-" + now),
             Property(data, "name"),
             Or(Property(data, "input"), Property(data, "arguments")),
             Running, None)
  }

  /** A result resolves the first call it matches. */
  function Resolved(tcs: seq<ToolCall>, data: Json): seq<ToolCall> {
    if tcs == [] then []
    else if Matches(tcs[0], Property(data, "id"), Property(data, "name")) then [Resolve(tcs[0], data)] + tcs[1..]
    else [tcs[0]] + Resolved(tcs[1..], data)
  }

  /** The call in slot `i` is the first that matches; or, at the end, none does. */
  lemma {:induction false} ResolvedFirst(tcs: seq<ToolCall>, data: Json, i: nat)
    requires i <= |tcs|
    requires forall j :: 0 <= j < i ==> !Matches(tcs[j], Property(data, "id"), Property(data, "name"))
    requires i < |tcs| ==> Matches(tcs[i], Property(data, "id"), Property(data, "name"))
    ensures Resolved(tcs, data) == if i < |tcs| then tcs[i := Resolve(tcs[i], data)] else tcs
    decreases |tcs|
  {
    if tcs != [] {
      var tail := tcs[1..];
      UpdateCons(tcs, Resolve(tcs[0], data), 0);
      if i > 0 {
        assert forall j :: 0 <= j < i - 1 ==> tail[j] == tcs[j + 1];
        ResolvedFirst(tail, data, i - 1);
        if i < |tcs| {
          assert tail[i - 1] == tcs[i];
          UpdateCons(tcs, Resolve(tcs[i], data), i);
        }
      }
    }
  }

  lemma UpdateCons(tcs: seq<ToolCall>, tc: ToolCall, i: nat)
    requires i < |tcs|
    ensures [tcs[0]] + tcs[1..] == tcs
    ensures tcs[i := tc] == if i == 0 then [tc] + tcs[1..] else [tcs[0]] + tcs[1..][i - 1 := tc]
  {
  }

  function Finished(tcs: seq<ToolCall>): (done: seq<ToolCall>)
    ensures |done| == |tcs| && forall i :: 0 <= i < |tcs| ==> done[i] == Finish(tcs[i])
  {
    if tcs == [] then [] else [Finish(tcs[0])] + Finished(tcs[1..])
  }

  /** The calls after an event. */
  function CallsAfter(tcs: seq<ToolCall>, e: Event, now: string): seq<ToolCall> {
    if e.data == Null then tcs
    else if e.event == "tool_call" then tcs + [NewCall(e.data, now)]
    else if e.event == "tool_result" then Resolved(tcs, e.data)
    else if e.event == "done" then Finished(tcs)
    else tcs
  }

  /** The text an event adds to the shown content. */
  function Shown(e: Event, content: string): string {
    if e.data == Null then ""
    else if e.event == "chunk" then Property(e.data, "content")
    else if e.event == "media" then
      var url := Or(Property(e.data, "content"), Property(e.data, "url"));
      if url == "" then "" else "\n![media](" + url + ")\n"
    else if e.event == "error" then "\n\n**Error:** " + Or(Property(e.data, "content"), "Unknown error")
    else if e.event == "done" && content == "" then Property(e.data, "content")
    else ""
  }

  /** The text an event adds to the shown thinking. */
  function Thought(e: Event): string {
    if e.event == "thinking" && e.data != Null then Property(e.data, "content") else ""
  }

  /** The message on screen.  `now` is the clock's text, used for missing tool-call ids. */
  class ChatMessage {
    var content: string
    var thinking: string
    var toolCalls: seq<ToolCall>

    function Value(): Message
      reads this
    {
      Message(content, thinking, toolCalls)
    }

    constructor ()
      ensures Value() == EmptyMessage
    {
      content, thinking, toolCalls := "", "", [];
    }

    /** `switchTo` is the session the store shows from now on instead: that of a session event, if it is
        another one.  For the message, see `ShowEvent`. */
    method HandleSSEEvent(e: Event, now: string, sessionId: string) returns (switchTo: Option<string>)
      modifies this
      ensures switchTo == var id := Property(e.data, "sessionId");
                          if e.event == "session" && id != "" && id != sessionId then Some(id) else None
      ensures content == old(content) + Shown(e, old(content))
      ensures thinking == old(thinking) + Thought(e)
      ensures toolCalls == CallsAfter(old(toolCalls), e, now)
    {
      switchTo := None;
      if e.event == "session" {
        var id := Property(e.data, "sessionId");
        if id != "" && id != sessionId {
          switchTo := Some(id);
        }
      }
      ShowEvent(e, now);
    }

    /** The content only grows, by what the event shows; thinking grows by thinking events only; the tool
        calls are added, resolved and finished. */
    method ShowEvent(e: Event, now: string)
      modifies this
      ensures content == old(content) + Shown(e, old(content))
      ensures thinking == old(thinking) + Thought(e)
      ensures toolCalls == CallsAfter(old(toolCalls), e, now)
    {
      if e.data == Null {
        return;
      }
      var data := e.data;
      if e.event == "chunk" {
        content := content + Property(data, "content");
      } else if e.event == "thinking" {
        thinking := thinking + Property(data, "content");
      } else if e.event == "tool_call" {
        toolCalls := toolCalls + [NewCall(data, now)];
      } else if e.event == "tool_result" {
        ResolveFirst(data);
      } else if e.event == "media" {
        var url := Or(Property(data, "content"), Property(data, "url"));
        if url != "" {
          content := content + "\n![media](" + url + ")\n";
        }
      } else if e.event == "error" {
        content := content + "\n\n**Error:** " + Or(Property(data, "content"), "Unknown error");
      } else if e.event == "done" {
        if Property(data, "content") != "" && content == "" {
          content := Property(data, "content");
        }
        FinishAll();
      }
    }

    method ResolveFirst(data: Json)
      modifies this`toolCalls
      ensures toolCalls == Resolved(old(toolCalls), data)
    {
      var id, name := Property(data, "id"), Property(data, "name");
      ghost var was := toolCalls;
      var i := 0;
      while i < |toolCalls|
        invariant 0 <= i <= |toolCalls| && toolCalls == was
        invariant forall j :: 0 <= j < i ==> !Matches(was[j], id, name)
      {
        if Matches(toolCalls[i], id, name) {
          ResolvedFirst(was, data, i);
          toolCalls := toolCalls[i := Resolve(toolCalls[i], data)];
          return;
        }
        i := i + 1;
      }
      ResolvedFirst(was, data, i);
    }

    method FinishAll()
      modifies this`toolCalls
      ensures toolCalls == Finished(old(toolCalls))
    {
      var i := 0;
      while i < |toolCalls|
        invariant 0 <= i <= |toolCalls| == |old(toolCalls)|
        invariant forall j :: 0 <= j < |toolCalls| ==>
                    toolCalls[j] == if j < i then Finish(old(toolCalls)[j]) else old(toolCalls)[j]
      {
        if toolCalls[i].status == Running {
          toolCalls := toolCalls[i := toolCalls[i].(status := Completed)];
        }
        i := i + 1;
      }
    }
  }

  /** The content shown after a list of events. */
  function ShownAfter(content: string, es: seq<Event>): string
    decreases |es|
  {
    if es == [] then content else ShownAfter(content + Shown(es[0], content), es[1..])
  }

  /** Showing a whole stream, event by event, as the parser hands them over. */
  method ShowAll(es: seq<Event>, now: string, sessionId: string) returns (shown: string)
    ensures shown == ShownAfter("", es)
  {
    var msg := new ChatMessage();
    var i := 0;
    while i < |es|
      invariant 0 <= i <= |es|
      invariant ShownAfter(msg.content, es[i..]) == ShownAfter("", es)
    {
      assert es[i..][0] == es[i] && es[i..][1..] == es[i + 1..];
      var _ := msg.HandleSSEEvent(es[i], now, sessionId);
      i := i + 1;
    }
    shown := msg.content;
  }

  // ---------------------------------------------------------------------------------------------
  // Tool results answer calls of their name first in, first out
  // ---------------------------------------------------------------------------------------------

  function CallsAfterAll(tcs: seq<ToolCall>, es: seq<Event>, now: string): seq<ToolCall>
    decreases |es|
  {
    if es == [] then tcs else CallsAfterAll(CallsAfter(tcs, es[0], now), es[1..], now)
  }

  function Named(tcs: seq<ToolCall>, name: string): seq<ToolCall> {
    if tcs == [] then []
    else (if tcs[0].name == name then [tcs[0]] else []) + Named(tcs[1..], name)
  }

  /** A queue of the calls of one name: the results that answered calls, in order, and how many calls still
      wait.  A result that finds nobody waiting is dropped. */
  datatype Desk = Desk(answers: seq<Json>, waiting: nat)

  function OnDesk(d: Desk, e: Event, name: string): Desk {
    if e.data == Null || Property(e.data, "name") != name then d
    else if e.event == "tool_call" then d.(waiting := d.waiting + 1)
    else if e.event == "tool_result" && d.waiting > 0 then Desk(d.answers + [e.data], d.waiting - 1)
    else d
  }

  function OnDeskAll(d: Desk, es: seq<Event>, name: string): Desk
    decreases |es|
  {
    if es == [] then d else OnDeskAll(OnDesk(d, es[0], name), es[1..], name)
  }

  /** The i-th answered call carries the i-th answer, and the others are running. */
  ghost predicate Booked(cs: seq<ToolCall>, d: Desk) {
    && |cs| == |d.answers| + d.waiting
    && (forall i :: 0 <= i < |d.answers| ==>
          && cs[i].result == Some(Property(d.answers[i], "content"))
          && cs[i].status == if Property(d.answers[i], "status") == "error" || Flag(d.answers[i], "is_error")
                             then Failed else Completed)
    && (forall i :: |d.answers| <= i < |cs| ==> cs[i].status == Running)
  }

  function FirstRunning(cs: seq<ToolCall>, data: Json): seq<ToolCall> {
    if cs == [] then []
    else if cs[0].status == Running then [Resolve(cs[0], data)] + cs[1..]
    else [cs[0]] + FirstRunning(cs[1..], data)
  }

  lemma {:induction false} FirstRunningIs(cs: seq<ToolCall>, data: Json, k: nat)
    requires k <= |cs|
    requires forall i :: 0 <= i < k ==> cs[i].status != Running
    requires k < |cs| ==> cs[k].status == Running
    ensures FirstRunning(cs, data) == if k < |cs| then cs[k := Resolve(cs[k], data)] else cs
    decreases |cs|
  {
    if cs != [] {
      var tail := cs[1..];
      UpdateCons(cs, Resolve(cs[0], data), 0);
      if k > 0 {
        assert forall i :: 0 <= i < k - 1 ==> tail[i] == cs[i + 1];
        FirstRunningIs(tail, data, k - 1);
        if k < |cs| {
          assert tail[k - 1] == cs[k];
          UpdateCons(cs, Resolve(cs[k], data), k);
        }
      }
    }
  }

  lemma {:induction false} NamedResolved(tcs: seq<ToolCall>, data: Json, name: string)
    requires Property(data, "id") == ""
    ensures Named(Resolved(tcs, data), name)
            == if Property(data, "name") == name then FirstRunning(Named(tcs, name), data) else Named(tcs, name)
    decreases |tcs|
  {
    if tcs != [] {
      var rest := Named(tcs[1..], name);
      NamedResolved(tcs[1..], data, name);
      NamedCons(tcs[0], tcs[1..], name);
      if Matches(tcs[0], "", Property(data, "name")) {
        NamedCons(Resolve(tcs[0], data), tcs[1..], name);
      } else {
        NamedCons(tcs[0], Resolved(tcs[1..], data), name);
      }
      assert tcs == [tcs[0]] + tcs[1..];
      assert [] + rest == rest && ([tcs[0]] + rest)[1..] == rest;
    }
  }

  lemma NamedCons(tc: ToolCall, tcs: seq<ToolCall>, name: string)
    ensures Named([tc] + tcs, name) == (if tc.name == name then [tc] else []) + Named(tcs, name)
  {
    assert ([tc] + tcs)[1..] == tcs;
  }

  lemma {:induction false} NamedAppend(tcs: seq<ToolCall>, tc: ToolCall, name: string)
    ensures Named(tcs + [tc], name) == Named(tcs, name) + (if tc.name == name then [tc] else [])
    decreases |tcs|
  {
    var last := if tc.name == name then [tc] else [];
    if tcs == [] {
      assert tcs + [tc] == [tc] + [] && last + [] == [] + last;
      NamedCons(tc, [], name);
    } else {
      var first := if tcs[0].name == name then [tcs[0]] else [];
      assert tcs + [tc] == [tcs[0]] + (tcs[1..] + [tc]);
      NamedCons(tcs[0], tcs[1..] + [tc], name);
      NamedAppend(tcs[1..], tc, name);
      assert first + (Named(tcs[1..], name) + last) == (first + Named(tcs[1..], name)) + last;
    }
  }

  /** Tool results as the server sends them carry no id. */
  ghost predicate WithoutIds(es: seq<Event>) {
    forall e :: e in es ==> e.event != "done" && (e.event == "tool_result" ==> Property(e.data, "id") == "")
  }

  lemma AnswerBooked(cs: seq<ToolCall>, data: Json, d: Desk)
    requires Booked(cs, d) && d.waiting > 0
    ensures Booked(FirstRunning(cs, data), Desk(d.answers + [data], d.waiting - 1))
  {
    var k := |d.answers|;
    FirstRunningIs(cs, data, k);
    assert forall i :: 0 <= i < k ==> (d.answers + [data])[i] == d.answers[i];
  }

  lemma DropBooked(cs: seq<ToolCall>, data: Json, d: Desk)
    requires Booked(cs, d) && d.waiting == 0
    ensures FirstRunning(cs, data) == cs
  {
    FirstRunningIs(cs, data, |cs|);
  }

  lemma EventBooked(tcs: seq<ToolCall>, e: Event, now: string, name: string, d: Desk)
    requires Booked(Named(tcs, name), d)
    requires e.event != "done" && (e.event == "tool_result" ==> Property(e.data, "id") == "")
    ensures Booked(Named(CallsAfter(tcs, e, now), name), OnDesk(d, e, name))
  {
    if e.data != Null {
      if e.event == "tool_call" {
        NamedAppend(tcs, NewCall(e.data, now), name);
        assert Named(tcs, name) + [] == Named(tcs, name);
      } else if e.event == "tool_result" {
        NamedResolved(tcs, e.data, name);
        if d.waiting > 0 {
          AnswerBooked(Named(tcs, name), e.data, d);
        } else {
          DropBooked(Named(tcs, name), e.data, d);
        }
      }
    }
  }

  lemma {:induction false} RunBooked(tcs: seq<ToolCall>, es: seq<Event>, now: string, name: string, d: Desk)
    requires Booked(Named(tcs, name), d) && WithoutIds(es)
    ensures Booked(Named(CallsAfterAll(tcs, es, now), name), OnDeskAll(d, es, name))
    decreases |es|
  {
    if es != [] {
      assert es[0] in es && forall e :: e in es[1..] ==> e in es;
      EventBooked(tcs, es[0], now, name, d);
      RunBooked(CallsAfter(tcs, es[0], now), es[1..], now, name, OnDesk(d, es[0], name));
    }
  }

  /** However calls and results of different tools interleave before the done event, the calls of each
      name are answered first in, first out. */
  lemma ResultsAreFifo(es: seq<Event>, now: string, name: string)
    requires WithoutIds(es)
    ensures Booked(Named(CallsAfterAll([], es, now), name), OnDeskAll(Desk([], 0), es, name))
  {
    RunBooked([], es, now, name, Desk([], 0));
  }

  // ---------------------------------------------------------------------------------------------
  // The end of the stream, and calls with ids
  // ---------------------------------------------------------------------------------------------

  lemma {:induction false} NamedFinished(tcs: seq<ToolCall>, name: string)
    ensures Named(Finished(tcs), name) == Finished(Named(tcs, name))
    decreases |tcs|
  {
    if tcs != [] {
      var rest := Named(tcs[1..], name);
      NamedFinished(tcs[1..], name);
      assert ([Finish(tcs[0])] + Finished(tcs[1..]))[1..] == Finished(tcs[1..]);
      assert ([tcs[0]] + rest)[1..] == rest && [] + rest == rest && [] + Finished(rest) == Finished(rest);
    }
  }

  lemma {:induction false} CallsAppend(tcs: seq<ToolCall>, es: seq<Event>, e: Event, now: string)
    ensures CallsAfterAll(tcs, es + [e], now) == CallsAfter(CallsAfterAll(tcs, es, now), e, now)
    decreases |es|
  {
    if es == [] {
      assert es + [e] == [e] && [e][1..] == [];
    } else {
      assert (es + [e])[1..] == es[1..] + [e];
      CallsAppend(CallsAfter(tcs, es[0], now), es[1..], e, now);
    }
  }

  /** When the done event comes, no call is left running: the answered ones stay as they were answered, and
      those that still wait count as completed. */
  lemma NothingRunsAfterDone(es: seq<Event>, done: Event, now: string, name: string)
    requires WithoutIds(es) && done.event == "done" && done.data != Null
    ensures var cs := Named(CallsAfterAll([], es + [done], now), name);
            var d := OnDeskAll(Desk([], 0), es, name);
            && |cs| == |d.answers| + d.waiting
            && (forall i :: 0 <= i < |d.answers| ==>
                  && cs[i].result == Some(Property(d.answers[i], "content"))
                  && cs[i].status == if Property(d.answers[i], "status") == "error" || Flag(d.answers[i], "is_error")
                                     then Failed else Completed)
            && forall i :: |d.answers| <= i < |cs| ==> cs[i].status == Completed
  {
    var before := CallsAfterAll([], es, now);
    ResultsAreFifo(es, now, name);
    CallsAppend([], es, done, now);
    NamedFinished(before, name);
    assert CallsAfter(before, done, now) == Finished(before) by {
      assert "done" != "tool_call" && "done" != "tool_result";
    }
  }

  /** A call with an id of its own is answered by the result with that id, whatever its name and whatever
      else is running. */
  lemma AnsweredById(tcs: seq<ToolCall>, call: Json, result: Json, now: string)
    requires call.Obj? && result.Obj?
    requires Property(call, "id") == Property(result, "id") != ""
    requires forall tc :: tc in tcs ==> tc.id != Property(call, "id")
    ensures CallsAfter(CallsAfter(tcs, Event("tool_call", call), now), Event("tool_result", result), now)
            == tcs + [ToolCall(Property(call, "id"), Property(call, "name"),
                               if Property(call, "input") != "" then Property(call, "input")
                               else Property(call, "arguments"),
                               if Property(result, "status") == "error" || Flag(result, "is_error")
                               then Failed else Completed,
                               Some(Property(result, "content")))]
  {
    var added := tcs + [NewCall(call, now)];
    assert forall j :: 0 <= j < |tcs| ==> added[j] in tcs;
    ResolvedFirst(added, result, |tcs|);
    assert added[|tcs| := Resolve(added[|tcs|], result)] == tcs + [Resolve(NewCall(call, now), result)];
  }

  /** A medium is shown under its content, or under its URL when that is empty. */
  lemma MediaShown(data: Json, content: string)
    requires data.Obj?
    ensures var url := if Property(data, "content") != "" then Property(data, "content") else Property(data, "url");
            Shown(Event("media", data), content) == if url == "" then "" else "\n![media](" + url + ")\n"
  {
  }

  /** An event without data, or of another kind, changes nothing on screen. */
  lemma OtherEventsShowNothing(e: Event, content: string, tcs: seq<ToolCall>, now: string)
    requires e.data == Null
             || e.event !in ["chunk", "thinking", "tool_call", "tool_result", "media", "error", "done"]
    ensures Shown(e, content) == "" && Thought(e) == "" && CallsAfter(tcs, e, now) == tcs
  {
  }
}
