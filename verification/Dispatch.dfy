/** The plugin's reply stream for one prompt: cumulative partial texts become deltas, turns are told
    apart by their length, silent replies are held back, and one final text closes the stream. */
module Dispatch {
  import opened Prelude
  import opened Wire

  /** What the plugin sends for a session. */
  datatype Update =
    | Chunk(text: string)
    | Final(text: string)
    | Other(update: map<string, Json>)
    | Outcome(stopReason: string)           // the result of the request
    | Failure(code: int, message: string)   // or its error

  const DISPATCH_FAILED: int := -32000
  const AGENT_ABORTED_TIMEOUT: int := -32001
  const AGENT_ABORTED: string := "Agent run aborted due to timeout"

  /** What the agent runtime calls back with, and what else is sent for the session meanwhile: tool hooks,
      outbound texts and media as notifications, the error of an agent run that was aborted, and the user
      who stops the dispatch. */
  datatype Callback =
    | Partial(text: string)
    | DeliverFinal(text: string)
    | DeliverOther
    | Hook(update: map<string, Json>)
    | AgentAborts
    | Abort

  /** How the dispatch ends: it returns, or it throws an error of this text. */
  datatype Ending = Completed | Throws(error: string)

  datatype Reply = Reply(
    lastPartialText: string,
    allTurnsText: string,
    chunkCount: nat,
    finalSent: bool,
    aborted: bool,
    sent: seq<Update>)

  const FreshReply := Reply("", "", 0, false, false, [])

  // ---------------------------------------------------------------------------------------------
  // Silent replies
  // ---------------------------------------------------------------------------------------------

  const SILENT_REPLY_TOKEN: string := "NO_REPLY"
  const HEARTBEAT_TOKEN: string := "HEARTBEAT_OK"

  function UpperChar(c: char): char {
    if 'a' <= c <= 'z' then c - 'a' + 'A' else c
  }

  function Upper(s: string): string {
    seq(|s|, i requires 0 <= i < |s| => UpperChar(s[i]))
  }

  /** A text that may still become a silent token while it is streamed. */
  predicate IsSilentTokenPrefix(text: string) {
    var normalized := Upper(Trim(text));
    && normalized != ""
    && (forall c :: c in normalized ==> 'A' <= c <= 'Z' || c == '_')
    && (normalized <= SILENT_REPLY_TOKEN || normalized <= HEARTBEAT_TOKEN)
  }

  // ---------------------------------------------------------------------------------------------
  // Steps.  `isSilent` is the runtime's test for a silent reply, `ok` whether a send succeeds
  // ---------------------------------------------------------------------------------------------

  predicate Hidden(text: string, isSilent: string -> bool) {
    isSilent(text) || IsSilentTokenPrefix(text)
  }

  function Send(r: Reply, u: Update): Reply {
    r.(sent := r.sent + [u])
  }

  function SendChunk(r: Reply, text: string, ok: bool): Reply {
    if text == "" || !ok then r else Send(r, Chunk(text)).(chunkCount := r.chunkCount + 1)
  }

  function SendFinal(r: Reply, text: string, ok: bool): Reply {
    if r.finalSent || !ok then r else Send(r, Final(text)).(finalSent := true)
  }

  /** A partial text shorter than the last one opens a new turn. */
  function TurnOf(r: Reply, text: string): Reply {
    if |text| < |r.lastPartialText|
    then r.(allTurnsText := r.allTurnsText + r.lastPartialText, lastPartialText := "")
    else r
  }

  function Delta(last: string, text: string): string {
    if last <= text then text[|last|..] else text
  }

  function OnPartial(r: Reply, text: string, isSilent: string -> bool, ok: bool): Reply {
    if r.aborted || text == "" then r
    else
      var turn := TurnOf(r, text);
      var delta := Delta(turn.lastPartialText, text);
      if Hidden(text, isSilent) || delta == "" then turn
      else SendChunk(turn.(lastPartialText := text), delta, ok)
  }

  function OnDeliverFinal(r: Reply, text: string): Reply {
    if text == "" then r else r.(lastPartialText := text)
  }

  function FinalText(r: Reply): string {
    r.allTurnsText + r.lastPartialText
  }

  /** The final text after the dispatch, if one is due. */
  function Concluded(r: Reply, ending: Ending, isSilent: string -> bool, ok: bool): Reply {
    match ending
    case Completed =>
      if !r.finalSent && (r.chunkCount > 0 || FinalText(r) != "") && !isSilent(FinalText(r))
      then SendFinal(r, FinalText(r), ok) else r
    case Throws(_) => if r.aborted then SendFinal(r, FinalText(r), ok) else r
  }

  /** The dispatch ends with an error that no abort explains. */
  predicate Fails(r: Reply, ending: Ending) {
    ending.Throws? && !r.aborted
  }

  /** The answer to the request. */
  function Answer(r: Reply, ending: Ending): Update {
    match ending
    case Completed => Outcome(if r.finalSent || r.chunkCount > 0 then "end_turn" else "no_reply")
    case Throws(error) => if r.aborted then Outcome("end_turn") else Failure(DISPATCH_FAILED, error)
  }

  /** The end of the dispatch: `ok` and `answered` are whether the two sends succeed. */
  function OnEnd(r: Reply, ending: Ending, isSilent: string -> bool, ok: bool, answered: bool): Reply {
    var concluded := Concluded(r, ending, isSilent, ok);
    if answered then Send(concluded, Answer(concluded, ending)) else concluded
  }

  // ---------------------------------------------------------------------------------------------
  // The code's reply stream
  // ---------------------------------------------------------------------------------------------

  class ReplyStream {
    const isSilent: string -> bool
    var lastPartialText: string
    var allTurnsText: string
    var chunkCount: nat
    var finalSent: bool
    var aborted: bool
    var sent: seq<Update>

    function Value(): Reply
      reads this
    {
      Reply(lastPartialText, allTurnsText, chunkCount, finalSent, aborted, sent)
    }

    constructor (isSilent: string -> bool)
      ensures Value() == FreshReply && this.isSilent == isSilent
    {
      this.isSilent := isSilent;
      lastPartialText, allTurnsText, chunkCount, finalSent, aborted, sent := "", "", 0, false, false, [];
    }

    /** The user stops the dispatch. */
    method AbortDispatch()
      modifies this
      ensures Value() == old(Value()).(aborted := true)
    {
      aborted := true;
    }

    method SendChunkText(text: string, ok: bool)
      modifies this
      ensures Value() == SendChunk(old(Value()), text, ok)
    {
      if text == "" {
        return;
      }
      if ok {
        sent := sent + [Chunk(text)];
        chunkCount := chunkCount + 1;
      }
    }

    method SendFinalText(text: string, ok: bool)
      modifies this
      ensures Value() == SendFinal(old(Value()), text, ok)
    {
      if finalSent {
        return;
      }
      if ok {
        sent := sent + [Final(text)];
        finalSent := true;
      }
    }

    method OnPartialReply(text: string, ok: bool)
      modifies this
      ensures Value() == OnPartial(old(Value()), text, isSilent, ok)
    {
      if aborted {
        return;
      }
      if text == "" {
        return;
      }
      if |text| < |lastPartialText| {
        allTurnsText := allTurnsText + lastPartialText;
        lastPartialText := "";
      }
      if isSilent(text) {
        return;
      }
      if IsSilentTokenPrefix(text) {
        return;
      }
      var delta := text;
      if lastPartialText <= text {
        delta := text[|lastPartialText|..];
      }
      if delta == "" {
        return;
      }
      lastPartialText := text;
      SendChunkText(delta, ok);
    }

    method DeliverFinalText(text: string)
      modifies this
      ensures Value() == OnDeliverFinal(old(Value()), text)
    {
      if text != "" {
        lastPartialText := text;
      }
    }

    method SendAnswer(answer: Update, ok: bool)
      modifies this
      ensures Value() == if ok then Send(old(Value()), answer) else old(Value())
    {
      if ok {
        sent := sent + [answer];
      }
    }

    method Finish(ending: Ending, ok: bool, answered: bool)
      modifies this
      ensures Value() == OnEnd(old(Value()), ending, isSilent, ok, answered)
    {
      if ending == Completed {
        if !finalSent && (chunkCount > 0 || lastPartialText != "" || allTurnsText != "") {
          var finalText := allTurnsText + lastPartialText;
          if !isSilent(finalText) {
            SendFinalText(finalText, ok);
          }
        }
        var hasResponse := finalSent || chunkCount > 0;
        SendAnswer(Outcome(if hasResponse then "end_turn" else "no_reply"), answered);
      } else if aborted {
        if !finalSent {
          SendFinalText(allTurnsText + lastPartialText, ok);
        }
        SendAnswer(Outcome("end_turn"), answered);
      } else {
        SendAnswer(Failure(DISPATCH_FAILED, ending.error), answered);
      }
    }
  }

  // ---------------------------------------------------------------------------------------------
  // Runs in which every send succeeds
  // ---------------------------------------------------------------------------------------------

  function OnCallback(r: Reply, cb: Callback, isSilent: string -> bool): Reply {
    match cb
    case Partial(text) => OnPartial(r, text, isSilent, true)
    case DeliverFinal(text) => OnDeliverFinal(r, text)
    case DeliverOther => r
    case Hook(update) => Send(r, Other(update))
    case AgentAborts => Send(r, Failure(AGENT_ABORTED_TIMEOUT, AGENT_ABORTED))
    case Abort => r.(aborted := true)
  }

  function OnCallbacks(r: Reply, cbs: seq<Callback>, isSilent: string -> bool): Reply
    decreases |cbs|
  {
    if cbs == [] then r else OnCallbacks(OnCallback(r, cbs[0], isSilent), cbs[1..], isSilent)
  }

  /** The streamed text: all chunks, in order. */
  function Streamed(us: seq<Update>): string {
    if us == [] then ""
    else ChunkText(us[0]) + Streamed(us[1..])
  }

  function ChunkText(u: Update): string {
    if u.Chunk? then u.text else ""
  }

  lemma {:induction false} StreamedAppend(us: seq<Update>, u: Update)
    ensures Streamed(us + [u]) == Streamed(us) + ChunkText(u)
    decreases |us|
  {
    if us == [] {
      assert us + [u] == [u] && [u][1..] == [];
      assert ChunkText(u) + "" == ChunkText(u) == "" + ChunkText(u);
    } else {
      assert (us + [u])[1..] == us[1..] + [u];
      StreamedAppend(us[1..], u);
      assert ChunkText(us[0]) + (Streamed(us[1..]) + ChunkText(u))
             == (ChunkText(us[0]) + Streamed(us[1..])) + ChunkText(u);
    }
  }

  /** The guard of the delta: the text goes on from the last one of its turn. */
  predicate Extends(r: Reply, text: string, isSilent: string -> bool) {
    r.aborted || text == "" || Hidden(text, isSilent) || TurnOf(r, text).lastPartialText <= text
  }

  /** Every partial text that is sent extends the last one of its turn. */
  predicate AllExtend(r: Reply, cbs: seq<Callback>, isSilent: string -> bool)
    decreases |cbs|
  {
    cbs != [] ==>
      && (cbs[0].Partial? ==> Extends(r, cbs[0].text, isSilent))
      && AllExtend(OnCallback(r, cbs[0], isSilent), cbs[1..], isSilent)
  }

  /** Every final delivery repeats the text streamed last. */
  predicate FinalsRepeat(r: Reply, cbs: seq<Callback>, isSilent: string -> bool)
    decreases |cbs|
  {
    cbs != [] ==>
      && (cbs[0].DeliverFinal? ==> cbs[0].text == "" || cbs[0].text == r.lastPartialText)
      && FinalsRepeat(OnCallback(r, cbs[0], isSilent), cbs[1..], isSilent)
  }

  /** How much longer the streamed text is than the final text would be. */
  function Gap(r: Reply): int {
    |Streamed(r.sent)| - |FinalText(r)|
  }

  lemma DeltaExtends(all: string, last: string, text: string)
    ensures last <= text ==> (all + last) + Delta(last, text) == all + text
    ensures !(last <= text) ==> Delta(last, text) == text && last != ""
  {
    if last <= text {
      assert text == last + text[|last|..];
      assert (all + last) + text[|last|..] == all + (last + text[|last|..]);
    }
  }

  lemma PartialStep(r: Reply, text: string, isSilent: string -> bool)
    ensures var r' := OnPartial(r, text, isSilent, true);
            if Extends(r, text, isSilent) then
              && Gap(r') == Gap(r)
              && (Streamed(r.sent) == FinalText(r) ==> Streamed(r'.sent) == FinalText(r'))
            else Gap(r') > Gap(r)
  {
    if text != "" {
      var turn := TurnOf(r, text);
      TurnKeepsText(r, text);
      DeltaExtends(turn.allTurnsText, turn.lastPartialText, text);
      StreamedAppend(turn.sent, Chunk(Delta(turn.lastPartialText, text)));
    }
  }

  lemma TurnKeepsText(r: Reply, text: string)
    ensures FinalText(TurnOf(r, text)) == FinalText(r) && TurnOf(r, text).sent == r.sent
  {
    assert (r.allTurnsText + r.lastPartialText) + "" == r.allTurnsText + r.lastPartialText;
  }

  lemma CallbackStep(r: Reply, cb: Callback, isSilent: string -> bool)
    requires cb.DeliverFinal? ==> cb.text == "" || cb.text == r.lastPartialText
    ensures var r' := OnCallback(r, cb, isSilent);
            if cb.Partial? ==> Extends(r, cb.text, isSilent) then
              && Gap(r') == Gap(r)
              && (Streamed(r.sent) == FinalText(r) ==> Streamed(r'.sent) == FinalText(r'))
            else Gap(r') > Gap(r)
  {
    match cb {
      case Partial(text) => PartialStep(r, text, isSilent);
      case Hook(update) => StreamedAppend(r.sent, Other(update));
      case AgentAborts => StreamedAppend(r.sent, Failure(AGENT_ABORTED_TIMEOUT, AGENT_ABORTED));
      case _ =>
    }
  }

  lemma {:induction false} GapGrows(r: Reply, cbs: seq<Callback>, isSilent: string -> bool)
    requires FinalsRepeat(r, cbs, isSilent)
    ensures Gap(OnCallbacks(r, cbs, isSilent)) >= Gap(r)
    ensures !AllExtend(r, cbs, isSilent) ==> Gap(OnCallbacks(r, cbs, isSilent)) > Gap(r)
    ensures AllExtend(r, cbs, isSilent) && Streamed(r.sent) == FinalText(r) ==>
              var r' := OnCallbacks(r, cbs, isSilent);
              Streamed(r'.sent) == FinalText(r')
    decreases |cbs|
  {
    if cbs != [] {
      CallbackStep(r, cbs[0], isSilent);
      GapGrows(OnCallback(r, cbs[0], isSilent), cbs[1..], isSilent);
    }
  }

  // ---------------------------------------------------------------------------------------------
  // The end of a reply
  // ---------------------------------------------------------------------------------------------

  /** Chunks are counted, and none is empty; nothing closes the stream before the end. */
  predicate Going(r: Reply) {
    (r.chunkCount > 0 <==> Streamed(r.sent) != "") && !r.finalSent
  }

  lemma SendKeepsGoing(r: Reply, u: Update)
    requires Going(r) && !u.Chunk?
    ensures Going(Send(r, u))
  {
    StreamedAppend(r.sent, u);
    assert Streamed(r.sent) + "" == Streamed(r.sent);
  }

  lemma CallbackKeepsGoing(r: Reply, cb: Callback, isSilent: string -> bool)
    requires Going(r)
    ensures Going(OnCallback(r, cb, isSilent))
  {
    match cb {
      case Partial(text) =>
        StreamedAppend(r.sent, Chunk(Delta(TurnOf(r, text).lastPartialText, text)));
      case Hook(update) => SendKeepsGoing(r, Other(update));
      case AgentAborts => SendKeepsGoing(r, Failure(AGENT_ABORTED_TIMEOUT, AGENT_ABORTED));
      case _ =>
    }
  }

  lemma {:induction false} CallbacksKeepGoing(r: Reply, cbs: seq<Callback>, isSilent: string -> bool)
    requires Going(r)
    ensures Going(OnCallbacks(r, cbs, isSilent))
    decreases |cbs|
  {
    if cbs != [] {
      CallbackKeepsGoing(r, cbs[0], isSilent);
      CallbacksKeepGoing(OnCallback(r, cbs[0], isSilent), cbs[1..], isSilent);
    }
  }

  /** What the end of the dispatch adds, after any callbacks: the final text if there was any output and it
      is not silent, and the result, which says whether there was; after an abort the final text in any
      case, and the result; after another error that error alone. */
  lemma EndOfReply(cbs: seq<Callback>, isSilent: string -> bool, ending: Ending)
    ensures var r := OnCallbacks(FreshReply, cbs, isSilent);
            var text, streamed := FinalText(r), Streamed(r.sent) != "";
            OnEnd(r, ending, isSilent, true, true).sent == r.sent +
              match ending
              case Completed =>
                if (streamed || text != "") && !isSilent(text) then [Final(text), Outcome("end_turn")]
                else [Outcome(if streamed then "end_turn" else "no_reply")]
              case Throws(error) =>
                if r.aborted then [Final(text), Outcome("end_turn")] else [Failure(-32000, error)]
  {
    CallbacksKeepGoing(FreshReply, cbs, isSilent);
  }

  /** When the final text is due and cannot be sent, the result still tells whether anything was streamed. */
  lemma DroppedFinal(cbs: seq<Callback>, isSilent: string -> bool)
    ensures var r := OnCallbacks(FreshReply, cbs, isSilent);
            OnEnd(r, Completed, isSilent, false, true).sent
            == r.sent + [Outcome(if Streamed(r.sent) != "" then "end_turn" else "no_reply")]
  {
    CallbacksKeepGoing(FreshReply, cbs, isSilent);
  }

  /** A piece whose send fails is lost on the way, and counts for the final text as if it had been sent. */
  lemma DroppedPiece(r: Reply, text: string, isSilent: string -> bool)
    ensures OnPartial(r, text, isSilent, false).sent == r.sent
    ensures FinalText(OnPartial(r, text, isSilent, false)) == FinalText(OnPartial(r, text, isSilent, true))
  {
  }

  /** A reply that is closed is not closed again. */
  lemma ClosedOnce(r: Reply, ending: Ending, isSilent: string -> bool, ok: bool, answered: bool)
    requires r.finalSent
    ensures forall u :: u in OnEnd(r, ending, isSilent, ok, answered).sent && u.Final? ==> u in r.sent
  {
  }

  lemma {:induction false} HeldStaysEmpty(r: Reply, cbs: seq<Callback>, isSilent: string -> bool)
    requires r.lastPartialText == "" && forall cb :: cb in cbs ==> cb.Partial?
    requires forall cb :: cb in cbs ==> cb.text == "" || isSilent(cb.text) || BeginsToken(cb.text)
    ensures OnCallbacks(r, cbs, isSilent) == r
    decreases |cbs|
  {
    if cbs != [] {
      assert cbs[0] in cbs && forall cb :: cb in cbs[1..] ==> cb in cbs;
      PrefixTestIsBeginning(cbs[0].text);
      HeldStaysEmpty(r, cbs[1..], isSilent);
    }
  }

  /** A turn whose texts all are silent or begin a silent token, and whose delivered text is silent, sends
      nothing but the result that there was no reply. */
  lemma SilentReplyIsSilent(partials: seq<Callback>, text: string, isSilent: string -> bool)
    requires forall cb :: cb in partials ==>
               cb.Partial? && (cb.text == "" || isSilent(cb.text) || BeginsToken(cb.text))
    requires text == "" || isSilent(text)
    ensures var r := OnCallbacks(FreshReply, partials + [DeliverFinal(text)], isSilent);
            OnEnd(r, Completed, isSilent, true, true).sent == [Outcome("no_reply")]
  {
    HeldStaysEmpty(FreshReply, partials, isSilent);
    CallbacksBoth(FreshReply, partials, [DeliverFinal(text)], isSilent);
    assert [DeliverFinal(text)][1..] == [];
    EndOfReply(partials + [DeliverFinal(text)], isSilent, Completed);
    assert "" + text == text;
  }

  /** But silent turns add up: two of them become a final text that is shown, unless the two texts together
      are silent too. */
  lemma SilentTurnsAddUp(first: string, next: string, second: string, isSilent: string -> bool)
    requires isSilent(first) && isSilent(second) && isSilent(next) && second != "" && 0 < |next| < |first|
    ensures var cbs := [DeliverFinal(first), Partial(next), DeliverFinal(second)];
            var sent := OnEnd(OnCallbacks(FreshReply, cbs, isSilent), Completed, isSilent, true, true).sent;
            sent == if isSilent(first + second) then [Outcome("no_reply")]
                    else [Final(first + second), Outcome("end_turn")]
  {
    var cbs := [DeliverFinal(first), Partial(next), DeliverFinal(second)];
    var r1 := OnCallback(FreshReply, cbs[0], isSilent);
    var r2 := OnCallback(r1, cbs[1], isSilent);
    assert cbs[1..] == [cbs[1], cbs[2]] && [cbs[1], cbs[2]][1..] == [cbs[2]] && [cbs[2]][1..] == [];
    assert OnCallbacks(r2, [cbs[2]], isSilent) == OnCallback(r2, cbs[2], isSilent);
    assert OnCallbacks(r1, [cbs[1], cbs[2]], isSilent) == OnCallbacks(r2, [cbs[2]], isSilent);
    assert "" + first == first;
    EndOfReply(cbs, isSilent, Completed);
  }

  /** The text of the last final delivery that has one. */
  function LastDelivered(cbs: seq<Callback>, before: string): string
    decreases |cbs|
  {
    if cbs == [] then before
    else LastDelivered(cbs[1..], if cbs[0].DeliverFinal? && cbs[0].text != "" then cbs[0].text else before)
  }

  /** What callbacks do to a dispatch that was stopped: nothing is streamed, and the recorded text changes by
      final deliveries only. */
  lemma {:induction false} StoppedStaysQuiet(r: Reply, cbs: seq<Callback>, isSilent: string -> bool)
    requires r.aborted
    ensures var r' := OnCallbacks(r, cbs, isSilent);
            && r'.aborted && Streamed(r'.sent) == Streamed(r.sent)
            && r'.allTurnsText == r.allTurnsText && r'.lastPartialText == LastDelivered(cbs, r.lastPartialText)
    decreases |cbs|
  {
    if cbs != [] {
      StoppedStep(r, cbs[0], isSilent);
      StoppedStaysQuiet(OnCallback(r, cbs[0], isSilent), cbs[1..], isSilent);
    }
  }

  lemma StoppedStep(r: Reply, cb: Callback, isSilent: string -> bool)
    requires r.aborted
    ensures var r' := OnCallback(r, cb, isSilent);
            && r'.aborted && Streamed(r'.sent) == Streamed(r.sent) && r'.allTurnsText == r.allTurnsText
            && r'.lastPartialText == if cb.DeliverFinal? && cb.text != "" then cb.text else r.lastPartialText
  {
    var u := if cb.Hook? then Other(cb.update) else Failure(AGENT_ABORTED_TIMEOUT, AGENT_ABORTED);
    StreamedAppend(r.sent, u);
    assert Streamed(r.sent) + "" == Streamed(r.sent);
  }

  lemma {:induction false} CallbacksBoth(r: Reply, a: seq<Callback>, b: seq<Callback>, isSilent: string -> bool)
    ensures OnCallbacks(r, a + b, isSilent) == OnCallbacks(OnCallbacks(r, a, isSilent), b, isSilent)
    decreases |a|
  {
    if a == [] {
      assert a + b == b;
    } else {
      assert (a + b)[1..] == a[1..] + b;
      CallbacksBoth(OnCallback(r, a[0], isSilent), a[1..], b, isSilent);
    }
  }

  /** Once the user has stopped the dispatch nothing is streamed any more, whatever comes.  When it then
      throws, the stream gets one final text, of what was recorded up to the stop and delivered after it,
      and then the result. */
  lemma StoppedReply(before: seq<Callback>, after: seq<Callback>, isSilent: string -> bool, error: string)
    ensures var r := OnCallbacks(FreshReply, before, isSilent);
            var r' := OnCallbacks(FreshReply, before + ([Abort] + after), isSilent);
            var text := r.allTurnsText + LastDelivered(after, r.lastPartialText);
            && Streamed(r'.sent) == Streamed(r.sent)
            && OnEnd(r', Throws(error), isSilent, true, true).sent
               == r'.sent + [Final(text), Outcome("end_turn")]
  {
    var r := OnCallbacks(FreshReply, before, isSilent);
    var cbs := before + ([Abort] + after);
    CallbacksBoth(FreshReply, before, [Abort] + after, isSilent);
    assert ([Abort] + after)[1..] == after;
    StoppedStaysQuiet(r.(aborted := true), after, isSilent);
    EndOfReply(cbs, isSilent, Throws(error));
  }

  // ---------------------------------------------------------------------------------------------
  // Turn by turn
  // ---------------------------------------------------------------------------------------------

  /** The books of a reply: for each closed turn the text that was streamed and the text that was recorded
      for the final one, and what the current turn has streamed. */
  datatype Ledger = Ledger(r: Reply, closed: seq<(string, string)>, cur: string)

  const FreshLedger := Ledger(FreshReply, [], "")

  predicate Resets(r: Reply, text: string) {
    !r.aborted && text != "" && |text| < |r.lastPartialText|
  }

  /** The piece of a partial text that is sent. */
  function Piece(r: Reply, text: string, isSilent: string -> bool): string {
    if r.aborted || text == "" || Hidden(text, isSilent) then "" else Delta(TurnOf(r, text).lastPartialText, text)
  }

  function Follow(l: Ledger, cb: Callback, isSilent: string -> bool): Ledger {
    var r := OnCallback(l.r, cb, isSilent);
    if !cb.Partial? then l.(r := r)
    else if Resets(l.r, cb.text)
    then Ledger(r, l.closed + [(l.cur, l.r.lastPartialText)], Piece(l.r, cb.text, isSilent))
    else Ledger(r, l.closed, l.cur + Piece(l.r, cb.text, isSilent))
  }

  function FollowAll(l: Ledger, cbs: seq<Callback>, isSilent: string -> bool): Ledger
    decreases |cbs|
  {
    if cbs == [] then l else FollowAll(Follow(l, cbs[0], isSilent), cbs[1..], isSilent)
  }

  function StreamedTurns(turns: seq<(string, string)>): string {
    if turns == [] then "" else turns[0].0 + StreamedTurns(turns[1..])
  }

  function RecordedTurns(turns: seq<(string, string)>): string {
    if turns == [] then "" else turns[0].1 + RecordedTurns(turns[1..])
  }

  /** The books add up to what was sent, and to the closed part of the final text. */
  predicate Balanced(l: Ledger) {
    && Streamed(l.r.sent) == StreamedTurns(l.closed) + l.cur
    && l.r.allTurnsText == RecordedTurns(l.closed)
  }

  lemma {:induction false} TurnsAppend(turns: seq<(string, string)>, turn: (string, string))
    ensures StreamedTurns(turns + [turn]) == StreamedTurns(turns) + turn.0
    ensures RecordedTurns(turns + [turn]) == RecordedTurns(turns) + turn.1
    decreases |turns|
  {
    if turns == [] {
      assert turns + [turn] == [turn] && [turn][1..] == [];
      assert turn.0 + "" == turn.0 == "" + turn.0 && turn.1 + "" == turn.1 == "" + turn.1;
    } else {
      assert (turns + [turn])[1..] == turns[1..] + [turn];
      TurnsAppend(turns[1..], turn);
      Regroup(turns[0].0, StreamedTurns(turns[1..]), turn.0);
      Regroup(turns[0].1, RecordedTurns(turns[1..]), turn.1);
    }
  }

  lemma Regroup(a: string, b: string, c: string)
    ensures a + (b + c) == (a + b) + c
  {
  }

  lemma PartialSends(r: Reply, text: string, isSilent: string -> bool)
    ensures Streamed(OnPartial(r, text, isSilent, true).sent) == Streamed(r.sent) + Piece(r, text, isSilent)
  {
    if text != "" {
      var turn := TurnOf(r, text);
      StreamedAppend(turn.sent, Chunk(Delta(turn.lastPartialText, text)));
    }
    assert Streamed(r.sent) + "" == Streamed(r.sent);
  }

  lemma PartialBalanced(l: Ledger, text: string, isSilent: string -> bool)
    requires Balanced(l)
    ensures Balanced(Follow(l, Partial(text), isSilent))
  {
    PartialSends(l.r, text, isSilent);
    TurnsAppend(l.closed, (l.cur, l.r.lastPartialText));
    Regroup(StreamedTurns(l.closed), l.cur, Piece(l.r, text, isSilent));
  }

  lemma OtherBalanced(l: Ledger, u: Update)
    requires Balanced(l) && !u.Chunk?
    ensures Balanced(l.(r := Send(l.r, u)))
  {
    StreamedAppend(l.r.sent, u);
    assert Streamed(l.r.sent) + "" == Streamed(l.r.sent);
  }

  lemma FollowBalanced(l: Ledger, cb: Callback, isSilent: string -> bool)
    requires Balanced(l)
    ensures Balanced(Follow(l, cb, isSilent))
  {
    if cb.Partial? {
      PartialBalanced(l, cb.text, isSilent);
    } else if cb.Hook? {
      OtherBalanced(l, Other(cb.update));
    } else if cb.AgentAborts? {
      OtherBalanced(l, Failure(AGENT_ABORTED_TIMEOUT, AGENT_ABORTED));
    }
  }

  lemma {:induction false} FollowAllBalanced(l: Ledger, cbs: seq<Callback>, isSilent: string -> bool)
    requires Balanced(l)
    ensures Balanced(FollowAll(l, cbs, isSilent))
    ensures FollowAll(l, cbs, isSilent).r == OnCallbacks(l.r, cbs, isSilent)
    decreases |cbs|
  {
    if cbs != [] {
      FollowBalanced(l, cbs[0], isSilent);
      FollowAllBalanced(Follow(l, cbs[0], isSilent), cbs[1..], isSilent);
    }
  }

  /** Every closed turn streamed what it recorded. */
  ghost predicate EarlierShown(l: Ledger) {
    forall turn :: turn in l.closed ==> turn.0 == turn.1
  }

  /** So has the current turn. */
  predicate LastShown(l: Ledger) {
    l.cur == l.r.lastPartialText
  }

  /** When a callback leaves the current turn shown: a final delivery exactly if it repeats what the turn has
      streamed; a text that is sent and extends the recorded one exactly if the turn was shown, and one that
      does not extend it exactly if the turn had streamed nothing. */
  lemma TurnShownIff(l: Ledger, cb: Callback, isSilent: string -> bool)
    ensures LastShown(Follow(l, cb, isSilent)) <==>
              match cb
              case DeliverFinal(text) => if text == "" then LastShown(l) else text == l.cur
              case Partial(text) =>
                var cur := if Resets(l.r, text) then "" else l.cur;
                var last := if Resets(l.r, text) then "" else l.r.lastPartialText;
                if Piece(l.r, text, isSilent) == "" || last <= text then cur == last else cur == ""
              case _ => LastShown(l)
  {
    if cb.Partial? && cb.text != "" {
      var text, turn := cb.text, TurnOf(l.r, cb.text);
      var cur := if Resets(l.r, text) then "" else l.cur;
      var last := turn.lastPartialText;
      if Piece(l.r, text, isSilent) == "" {
        assert cur + "" == cur;
      } else if last <= text {
        ExtensionShown(cur, last, text);
      } else {
        assert |cur + text| == |cur| + |text|;
        assert "" + text == text;
      }
    }
  }

  lemma ExtensionShown(cur: string, last: string, text: string)
    requires last <= text
    ensures cur + text[|last|..] == text <==> cur == last
  {
    var tail := text[|last|..];
    assert text == last + tail && |cur + tail| == |cur| + |tail|;
    if cur + tail == text {
      assert cur == (cur + tail)[..|cur|] == text[..|last|] == last;
    }
  }

  lemma {:induction false} ShownTurnsAgree(turns: seq<(string, string)>)
    requires forall turn :: turn in turns ==> turn.0 == turn.1
    ensures StreamedTurns(turns) == RecordedTurns(turns)
    decreases |turns|
  {
    if turns != [] {
      assert turns[0] in turns && forall turn :: turn in turns[1..] ==> turn in turns;
      ShownTurnsAgree(turns[1..]);
    }
  }

  lemma SamePrefix(a: string, x: string, y: string)
    ensures a + x == a + y <==> x == y
  {
    assert (a + x)[|a|..] == x && (a + y)[|a|..] == y;
  }

  /** When the deltas add up to the final text, for all callbacks.  They do if every turn streamed what it
      recorded; given the earlier turns did, they do exactly if the last one did.  And if final deliveries
      only repeat what was streamed, they do exactly if every partial text that was sent extends the last
      one of its turn, and otherwise too much was streamed. */
  lemma StreamedIsFinalText(cbs: seq<Callback>, isSilent: string -> bool)
    ensures var r, l := OnCallbacks(FreshReply, cbs, isSilent), FollowAll(FreshLedger, cbs, isSilent);
            && l.r == r
            && (EarlierShown(l) ==> (Streamed(r.sent) == FinalText(r) <==> LastShown(l)))
            && (FinalsRepeat(FreshReply, cbs, isSilent) ==>
                  && (Streamed(r.sent) == FinalText(r) <==> AllExtend(FreshReply, cbs, isSilent))
                  && |Streamed(r.sent)| >= |FinalText(r)|)
  {
    var l := FollowAll(FreshLedger, cbs, isSilent);
    FollowAllBalanced(FreshLedger, cbs, isSilent);
    if EarlierShown(l) {
      ShownTurnsAgree(l.closed);
      SamePrefix(l.r.allTurnsText, l.cur, l.r.lastPartialText);
    }
    if FinalsRepeat(FreshReply, cbs, isSilent) {
      GapGrows(FreshReply, cbs, isSilent);
    }
  }

  lemma FollowCons(l: Ledger, cb: Callback, rest: seq<Callback>, isSilent: string -> bool)
    ensures FollowAll(l, [cb] + rest, isSilent) == FollowAll(Follow(l, cb, isSilent), rest, isSilent)
  {
    assert ([cb] + rest)[1..] == rest;
  }

  /** The first text of a turn, in full. */
  lemma FirstPiece(l: Ledger, text: string, isSilent: string -> bool)
    requires !l.r.aborted && text != "" && !Hidden(text, isSilent)
    requires l.r.lastPartialText == "" || Resets(l.r, text)
    ensures var l' := Follow(l, Partial(text), isSilent);
            && l'.r == SendChunk(TurnOf(l.r, text).(lastPartialText := text), text, true)
            && l' == if Resets(l.r, text) then Ledger(l'.r, l.closed + [(l.cur, l.r.lastPartialText)], text)
                     else Ledger(l'.r, l.closed, l.cur + text)
  {
    assert Delta("", text) == text;
  }

  /** A turn that is delivered at once and followed by a shorter text is lost: it is in the final text, and
      was never streamed. */
  lemma UnstreamedTurnIsLost(first: string, next: string, isSilent: string -> bool)
    requires next != "" && |next| < |first| && !Hidden(next, isSilent)
    ensures var r := OnCallbacks(FreshReply, [DeliverFinal(first), Partial(next)], isSilent);
            Streamed(r.sent) == next && FinalText(r) == first + next && r.chunkCount == 1
  {
    var cbs := [DeliverFinal(first), Partial(next)];
    var l1 := Follow(FreshLedger, DeliverFinal(first), isSilent);
    var l2 := Follow(l1, Partial(next), isSilent);
    FirstPiece(l1, next, isSilent);
    FollowCons(FreshLedger, DeliverFinal(first), [Partial(next)], isSilent);
    FollowCons(l1, Partial(next), [], isSilent);
    assert cbs == [DeliverFinal(first)] + [Partial(next)] && [Partial(next)] == [Partial(next)] + [];
    FollowAllBalanced(FreshLedger, cbs, isSilent);
    assert l2.closed == [("", first)];
    OneTurn(("", first));
    assert "" + first == first && "" + next == next;
  }

  lemma OneTurn(turn: (string, string))
    ensures StreamedTurns([turn]) == turn.0 && RecordedTurns([turn]) == turn.1
  {
    TurnsAppend([], turn);
    assert [] + [turn] == [turn] && "" + turn.0 == turn.0 && "" + turn.1 == turn.1;
  }

  lemma LostTurnExample()
    ensures var r := OnCallbacks(FreshReply, [DeliverFinal("Hello world"), Partial("Hi!")], _ => false);
            Streamed(r.sent) == "Hi!" && FinalText(r) == "Hello worldHi!"
  {
    var next := "Hi!";
    assert !IsSpace(next[0]) && !IsSpace(next[2]);
    assert TrimStart(next) == next && TrimEnd(next) == next;
    assert Upper(next)[2] == '!' && Upper(next)[2] in Upper(next);
    UnstreamedTurnIsLost("Hello world", next, _ => false);
  }

  /** Turns that are not shown can still add up, by coincidence: the second turn streams what the first one
      left out. */
  lemma CoincidenceAcrossTurns(a: string, b: string, c: string, isSilent: string -> bool)
    requires b != "" && c != "" && |c| < |a| && !Hidden(a, isSilent) && !Hidden(b + c, isSilent)
    ensures var cbs := [Partial(a), DeliverFinal(a + b), Partial(b + c), DeliverFinal(c)];
            var r := OnCallbacks(FreshReply, cbs, isSilent);
            Streamed(r.sent) == FinalText(r) && !EarlierShown(FollowAll(FreshLedger, cbs, isSilent))
  {
    var c1, c2, c3, c4 := Partial(a), DeliverFinal(a + b), Partial(b + c), DeliverFinal(c);
    var l1 := Follow(FreshLedger, c1, isSilent);
    var l2 := Follow(l1, c2, isSilent);
    var l3 := Follow(l2, c3, isSilent);
    FirstPiece(FreshLedger, a, isSilent);
    FirstPiece(l2, b + c, isSilent);
    FollowCons(FreshLedger, c1, [c2, c3, c4], isSilent);
    FollowCons(l1, c2, [c3, c4], isSilent);
    FollowCons(l2, c3, [c4], isSilent);
    FollowCons(l3, c4, [], isSilent);
    assert [c1, c2, c3, c4] == [c1] + [c2, c3, c4] && [c2, c3, c4] == [c2] + [c3, c4];
    assert [c3, c4] == [c3] + [c4] && [c4] == [c4] + [];
    var l := FollowAll(FreshLedger, [c1, c2, c3, c4], isSilent);
    FollowAllBalanced(FreshLedger, [c1, c2, c3, c4], isSilent);
    assert "" + a == a;
    assert l.closed == [(a, a + b)] && l.cur == b + c && l.r.lastPartialText == c;
    OneTurn((a, a + b));
    Regroup(a, b, c);
    assert (a, a + b) in l.closed && |a + b| == |a| + |b|;
  }

  /** Trimmed and in upper case, the text is a beginning of a silent token. */
  predicate BeginsToken(text: string) {
    var normalized := Upper(Trim(text));
    normalized != "" && (normalized <= "NO_REPLY" || normalized <= "HEARTBEAT_OK")
  }

  /** The test for foreign characters decides nothing: a beginning of a token has none. */
  lemma PrefixTestIsBeginning(text: string)
    ensures IsSilentTokenPrefix(text) <==> BeginsToken(text)
  {
    var normalized := Upper(Trim(text));
    if BeginsToken(text) {
      var token := if normalized <= SILENT_REPLY_TOKEN then SILENT_REPLY_TOKEN else HEARTBEAT_TOKEN;
      TokenIsCapital(token);
      forall c | c in normalized ensures 'A' <= c <= 'Z' || c == '_' {
        var i :| 0 <= i < |normalized| && normalized[i] == c;
        assert Capital(token[i]);
      }
    }
  }

  /** A new piece of text that is not silent is held back exactly while the text so far is a beginning of a
      silent token; otherwise it goes out as one chunk. */
  lemma HeldIffBeginsToken(r: Reply, text: string, isSilent: string -> bool)
    requires !r.aborted && text != "" && !isSilent(text)
    requires Delta(TurnOf(r, text).lastPartialText, text) != ""
    ensures OnPartial(r, text, isSilent, true).sent
            == if BeginsToken(text) then r.sent else r.sent + [Chunk(Delta(TurnOf(r, text).lastPartialText, text))]
  {
    PrefixTestIsBeginning(text);
  }

  /** The text is a beginning of the token, in capitals or in small letters. */
  predicate Spells(text: string, token: string) {
    && text != "" && |text| <= |token|
    && forall i :: 0 <= i < |text| ==> text[i] == token[i] || text[i] == Small(token[i])
  }

  function Small(c: char): char {
    if 'A' <= c <= 'Z' then c - 'A' + 'a' else c
  }

  /** While a text can still turn out to be a silent token, in any letters and with any spaces around it,
      nothing is sent. */
  lemma SilentPrefixIsHeld(r: Reply, left: string, text: string, right: string, token: string,
                           isSilent: string -> bool, ok: bool)
    requires token == "NO_REPLY" || token == "HEARTBEAT_OK"
    requires AllSpace(left) && AllSpace(right) && Spells(text, token)
    ensures OnPartial(r, left + text + right, isSilent, ok).sent == r.sent
  {
    TokenIsCapital(token);
    forall i | 0 <= i < |text| ensures UpperChar(text[i]) == token[i] && !IsSpace(text[i]) {
      assert Capital(token[i]);
    }
    TrimIs(left, text, right);
    assert Upper(text) == token[..|text|];
    PrefixTestIsBeginning(left + text + right);
    assert BeginsToken(left + text + right);
  }

  predicate Capital(c: char) {
    'A' <= c <= 'Z' || c == '_'
  }

  lemma TokenIsCapital(token: string)
    requires token == SILENT_REPLY_TOKEN || token == HEARTBEAT_TOKEN
    ensures forall i :: 0 <= i < |token| ==> Capital(token[i])
  {
  }
}
