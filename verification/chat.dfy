/** The chatbot transcripts of App.tsx and App_local.tsx: how a send turns
    the server's reply into messages, the voice-transcript sends of App.tsx,
    and the bot text App_local.tsx formats from an analysis. Each send is one
    atomic transition; the fetch enters as its settled outcome. */
module Chat {
  import opened Common
  import opened Text
  import Analysis
  import Api

  datatype Sender = User | Bot

  datatype ChatMessage = ChatMessage(sender: Sender, text: string)

  /** What `response.json()` produced: the fields the views read, or a
      parse error with its message. */
  datatype Body<R> = Json(success: bool, result: Option<R>, error: Option<string>) | NotJson(message: string)

  /** A settled fetch: a response, or a thrown value (`None` when it is not
      an `Error`, so it has no message). */
  datatype Reply<R> = Response(ok: bool, statusText: string, body: Body<R>) | FetchFailed(message: Option<string>)

  datatype Outcome<R> = Answered(result: R) | Failed(message: string)

  const UnknownError := "Unknown error"
  const ChatFallback := "An error occurred while processing your request."

  /** The try/catch of a text send, up to the message it produces:
      `data.success && data.result` answers, everything else fails with the
      message of the error thrown or caught; `fallback` is the text used for
      a thrown value that is not an `Error`. */
  function Interpret<R>(reply: Reply<R>, fallback: string): (o: Outcome<R>)
    ensures o.Answered? <==>
              reply.Response? && reply.ok && reply.body.Json?
              && reply.body.success && reply.body.result.Some?
    ensures o.Answered? ==> o.result == reply.body.result.value
    ensures reply.FetchFailed? ==> o == Failed(reply.message.GetOr(fallback))
    ensures reply.Response? && !reply.ok ==> o == Failed("API Error: " + reply.statusText)
    ensures reply.Response? && reply.ok && reply.body.NotJson? ==> o == Failed(reply.body.message)
    ensures reply.Response? && reply.ok && reply.body.Json? && o.Failed? ==>
              o.message == OrElse(reply.body.error, UnknownError)
  {
    match reply
    case FetchFailed(m) => Failed(m.GetOr(fallback))
    case Response(ok, statusText, body) =>
      if !ok then Failed("API Error: " + statusText)
      else match body
        case NotJson(m) => Failed(m)
        case Json(success, result, error) =>
          if success && result.Some? then Answered(result.value)
          else Failed(OrElse(error, UnknownError))
  }

  /** The bot message shown when a send failed. */
  function ErrorText(m: string): string
  {
    "Sorry, I encountered an error: " + m + ". Please ensure the API server is running on port 5000."
  }

  /** The error text names the failure: different messages give different
      texts. */
  lemma ErrorTextInjective(m1: string, m2: string)
    ensures ErrorText(m1) == ErrorText(m2) <==> m1 == m2
  {
    var p := "Sorry, I encountered an error: ";
    if ErrorText(m1) == ErrorText(m2) {
      assert |m1| == |m2|;
      assert m1 == ErrorText(m1)[|p|..|p| + |m1|];
      assert m2 == ErrorText(m2)[|p|..|p| + |m2|];
    }
  }

  datatype ChatState = ChatState(messages: seq<ChatMessage>, input: string, isLoading: bool, error: Option<string>)

  const Greeting := "greeting"
  const StructuredResult := "structured_result"

  /** App.tsx's transcript after mounting: one bot greeting. */
  const InitialChat := ChatState([ChatMessage(Bot, Greeting)], "", false, None)

  /** The end of a non-blank send: the raw input as a user message, then
      one bot message; the input is cleared and loading is over. */
  function Exchange(st: ChatState, bot: ChatMessage, error: Option<string>): ChatState
  {
    ChatState(st.messages + [ChatMessage(User, st.input), bot], "", false, error)
  }

  /** App.tsx's chatbot: the transcript and the last analysis received. */
  datatype AppChat<R> = AppChat(chat: ChatState, analysisData: Option<R>)

  /** `ChatbotView.handleSend` of App.tsx. */
  function Send<R>(st: AppChat<R>, reply: Reply<R>): (r: AppChat<R>)
    ensures IsBlank(st.chat.input, Js) ==> r == st
    ensures !IsBlank(st.chat.input, Js) ==>
              && |r.chat.messages| == |st.chat.messages| + 2
              && r.chat.messages[..|st.chat.messages|] == st.chat.messages
              && r.chat.messages[|st.chat.messages|] == ChatMessage(User, st.chat.input)
              && r.chat.messages[|st.chat.messages| + 1].sender == Bot
              && r.chat.input == "" && !r.chat.isLoading
    ensures !IsBlank(st.chat.input, Js) ==>
              match Interpret(reply, ChatFallback)
              case Answered(res) =>
                && r.chat.messages[|st.chat.messages| + 1].text == StructuredResult
                && r.analysisData == Some(res) && r.chat.error.None?
              case Failed(m) =>
                && r.chat.messages[|st.chat.messages| + 1].text == ErrorText(m)
                && r.analysisData == st.analysisData && r.chat.error == Some(m)
  {
    if IsBlank(st.chat.input, Js) then st
    else match Interpret(reply, ChatFallback)
      case Answered(res) => AppChat(Exchange(st.chat, ChatMessage(Bot, StructuredResult), None), Some(res))
      case Failed(m) => AppChat(Exchange(st.chat, ChatMessage(Bot, ErrorText(m)), Some(m)), st.analysisData)
  }

  /** One send of a session: the input typed, then the reply the send got. */
  datatype Step<R> = Step(input: string, reply: Reply<R>)

  function Session<R>(st: AppChat<R>, steps: seq<Step<R>>): AppChat<R>
    decreases |steps|
  {
    if steps == [] then st
    else Session(Send(st.(chat := st.chat.(input := steps[0].input)), steps[0].reply), steps[1..])
  }

  function NonBlankSends<R>(steps: seq<Step<R>>): nat
  {
    if steps == [] then 0
    else (if IsBlank(steps[0].input, Js) then 0 else 1) + NonBlankSends(steps[1..])
  }

  /** The transcript is append-only: a session keeps every earlier message
      and adds two per non-blank send. */
  lemma {:induction false} SessionGrowth<R>(st: AppChat<R>, steps: seq<Step<R>>)
    ensures st.chat.messages <= Session(st, steps).chat.messages
    ensures |Session(st, steps).chat.messages| == |st.chat.messages| + 2 * NonBlankSends(steps)
    decreases |steps|
  {
    if steps != [] {
      var next := Send(st.(chat := st.chat.(input := steps[0].input)), steps[0].reply);
      SessionGrowth(next, steps[1..]);
    }
  }

  /** From position `n` on, `ms` holds `c` (user, bot) pairs. */
  predicate Pairs(ms: seq<ChatMessage>, n: nat, c: nat)
  {
    n + 2 * c <= |ms|
    && forall j :: 0 <= j < c ==> ms[n + 2 * j].sender == User && ms[n + 2 * j + 1].sender == Bot
  }

  lemma PairsCons(ms: seq<ChatMessage>, n: nat, c: nat)
    requires n + 2 <= |ms| && ms[n].sender == User && ms[n + 1].sender == Bot
    requires Pairs(ms, n + 2, c)
    ensures Pairs(ms, n, c + 1)
  {
    forall j | 0 <= j < c + 1
      ensures ms[n + 2 * j].sender == User && ms[n + 2 * j + 1].sender == Bot
    {
      if j > 0 {
        assert n + 2 * j == (n + 2) + 2 * (j - 1);
      }
    }
  }

  /** The added messages come in pairs: the user's, then the bot's. */
  lemma {:induction false} SessionAlternates<R>(st: AppChat<R>, steps: seq<Step<R>>)
    ensures Pairs(Session(st, steps).chat.messages, |st.chat.messages|, NonBlankSends(steps))
    decreases |steps|
  {
    if steps != [] {
      var st' := st.(chat := st.chat.(input := steps[0].input));
      var next := Send(st', steps[0].reply);
      var n := |st.chat.messages|;
      var ms := Session(next, steps[1..]).chat.messages;
      assert Session(st, steps).chat.messages == ms;
      SessionAlternates(next, steps[1..]);
      if !IsBlank(steps[0].input, Js) {
        SessionGrowth(next, steps[1..]);
        assert next.chat.messages <= ms;
        assert ms[n] == next.chat.messages[n];
        assert ms[n + 1] == next.chat.messages[n + 1];
        PairsCons(ms, n, NonBlankSends(steps[1..]));
      } else {
        assert next == st';
      }
    }
  }

  /** A session started from the greeting always begins with it. */
  lemma SessionKeepsGreeting<R>(steps: seq<Step<R>>)
    ensures var ms := Session(AppChat(InitialChat, None), steps).chat.messages;
            |ms| >= 1 && ms[0] == ChatMessage(Bot, Greeting)
  {
    SessionGrowth(AppChat(InitialChat, None), steps);
  }

  // ----------------------------------------------------- voice transcripts

  const VoiceError := "Could not process voice input"

  /** App.tsx's two voice-transcript sends (`handleVoiceTranscript`, and the
      modal's `onTranscript`, which does not clear the input). Neither
      checks for a blank text nor the response status: the text is always
      appended, a successful body adds the bot message whatever the status,
      and any other body adds nothing. */
  function VoiceSend<R>(st: AppChat<R>, text: string, reply: Reply<R>, clearsInput: bool): (r: AppChat<R>)
    ensures |r.chat.messages| > |st.chat.messages|
    ensures r.chat.messages[..|st.chat.messages| + 1] == st.chat.messages + [ChatMessage(User, text)]
    ensures !r.chat.isLoading
    ensures r.chat.input == if clearsInput then "" else text
    ensures (reply.FetchFailed? || reply.body.NotJson?) <==> r.chat.error == Some(VoiceError)
    ensures r.chat.error.None? || r.chat.error == Some(VoiceError)
    ensures (reply.Response? && reply.body.Json? && reply.body.success && reply.body.result.Some?) ==>
              && r.chat.messages == st.chat.messages + [ChatMessage(User, text), ChatMessage(Bot, StructuredResult)]
              && r.analysisData == reply.body.result
    ensures !(reply.Response? && reply.body.Json? && reply.body.success && reply.body.result.Some?) ==>
              && r.chat.messages == st.chat.messages + [ChatMessage(User, text)]
              && r.analysisData == st.analysisData
  {
    var asked := st.chat.messages + [ChatMessage(User, text)];
    var input := if clearsInput then "" else text;
    match reply
    case FetchFailed(_) => AppChat(ChatState(asked, input, false, Some(VoiceError)), st.analysisData)
    case Response(_, _, NotJson(_)) => AppChat(ChatState(asked, input, false, Some(VoiceError)), st.analysisData)
    case Response(_, _, Json(success, result, _)) =>
      if success && result.Some? then
        AppChat(ChatState(asked + [ChatMessage(Bot, StructuredResult)], input, false, None), result)
      else AppChat(ChatState(asked, input, false, None), st.analysisData)
  }

  /** The typed and spoken paths disagree on an error status with a
      successful body: the typed send reports an API error, the voice send
      shows the result. */
  lemma VoiceIgnoresStatus<R>(st: AppChat<R>, text: string, statusText: string, res: R)
    requires !IsBlank(text, Js)
    ensures var reply := Response(false, statusText, Json(true, Some(res), None));
            && Send(st.(chat := st.chat.(input := text)), reply).chat.messages[|st.chat.messages| + 1]
                 == ChatMessage(Bot, ErrorText("API Error: " + statusText))
            && VoiceSend(st, text, reply, true).chat.messages[|st.chat.messages| + 1]
                 == ChatMessage(Bot, StructuredResult)
  {
  }

  // ------------------------------------------------- App_local.tsx formatter

  /** `data.result` as App_local.tsx reads it; a missing key is `None`. */
  datatype ClientResult = ClientResult(diagnoses: Option<seq<Item>>, symptoms: Option<seq<Item>>, triage: Option<Triage>)

  const Header := "Analysis Results:\n\n"
  const SymptomsHeading := "\U{1F4CB} Extracted Symptoms:\n"
  const DiagnosesHeading := "\U{1F3E5} Potential Diagnoses:\n"
  const Closing := "\U{1F4CA} Analysis complete. Please consult with a healthcare professional for proper diagnosis."

  /** The line shown for one item. */
  function BulletLine(x: Item): string
  {
    "  \U{2022} " + DisplayName(x) + "\n"
  }

  /** The bullet lines of the items, joined. */
  function Bullets(items: seq<Item>): (b: string)
    ensures items != [] ==> |b| > 0 && b[|b| - 1] == '\n'
  {
    if items == [] then ""
    else
      var rest := Bullets(items[1..]);
      var line := BulletLine(items[0]);
      assert (line + rest)[|line + rest| - 1] == if rest == [] then line[|line| - 1] else rest[|rest| - 1];
      line + rest
  }

  /** Bullets of a concatenation are the concatenated bullets. */
  lemma {:induction false} BulletsAppend(a: seq<Item>, b: seq<Item>)
    ensures Bullets(a + b) == Bullets(a) + Bullets(b)
    decreases |a|
  {
    if a == [] {
      assert a + b == b;
    } else {
      assert (a + b)[0] == a[0];
      assert (a + b)[1..] == a[1..] + b;
      BulletsAppend(a[1..], b);
    }
  }

  /** One bullet line per item, in order: the list is the concatenation of
      the items' lines. */
  lemma {:induction false} BulletsAreLines(items: seq<Item>)
    ensures Bullets(items) == Concat(seq(|items|, i requires 0 <= i < |items| => BulletLine(items[i])))
    decreases |items|
  {
    if items != [] {
      var ls := seq(|items|, i requires 0 <= i < |items| => BulletLine(items[i]));
      BulletsAreLines(items[1..]);
      assert ls[1..] == seq(|items[1..]|, i requires 0 <= i < |items[1..]| => BulletLine(items[1..][i]));
    }
  }

  /** The triage lines: present exactly when the triage has a level. */
  function TriageBlock(t: Option<Triage>): (b: string)
    ensures b == "" <==> !(t.Some? && Truthy(t.value.level))
    ensures t.Some? && Truthy(t.value.level) ==>
              var line := "\U{26A0}\U{FE0F} Triage Level: " + t.value.level.value + "\n";
              && (Truthy(t.value.reason) ==> b == line + "Reason: " + t.value.reason.value + "\n\n")
              && (!Truthy(t.value.reason) ==> b == line)
  {
    if t.Some? && Truthy(t.value.level) then
      var line := "\U{26A0}\U{FE0F} Triage Level: " + t.value.level.value + "\n";
      if Truthy(t.value.reason) then line + "Reason: " + t.value.reason.value + "\n\n" else line
    else ""
  }

  /** The symptoms section: present exactly when there are symptoms. */
  function SymptomBlock(items: seq<Item>): (b: string)
    ensures b == "" <==> items == []
    ensures items != [] ==> b == SymptomsHeading + Bullets(items) + "\n"
  {
    if items == [] then "" else SymptomsHeading + Bullets(items) + "\n"
  }

  /** Exactly one of the diagnoses section and the closing sentence. */
  function DiagnosisBlock(items: seq<Item>): (b: string)
    ensures items == [] ==> b == Closing
    ensures items != [] ==> b == DiagnosesHeading + Bullets(items)
  {
    if items == [] then Closing else DiagnosesHeading + Bullets(items)
  }

  /** The bot text of App_local.tsx's `handleSend`. */
  function FormatBotText(r: ClientResult): (t: string)
    ensures StartsWith(t, Header)
  {
    var t := Header + TriageBlock(r.triage) + SymptomBlock(r.symptoms.GetOr([]))
             + DiagnosisBlock(r.diagnoses.GetOr([]));
    assert t[..|Header|] == Header;
    t
  }

  /** The text ends with the closing sentence exactly when there are no
      diagnoses (otherwise it ends with a bullet's line break). */
  lemma ClosingIffNoDiagnoses(r: ClientResult)
    ensures var t := FormatBotText(r);
            (|t| >= |Closing| && t[|t| - |Closing|..] == Closing) <==> r.diagnoses.GetOr([]) == []
  {
    var t := FormatBotText(r);
    var ds := r.diagnoses.GetOr([]);
    var pre := Header + TriageBlock(r.triage) + SymptomBlock(r.symptoms.GetOr([]));
    if ds == [] {
      assert t == pre + Closing;
      assert t[|t| - |Closing|..] == Closing;
    } else {
      var b := Bullets(ds);
      assert t == pre + DiagnosesHeading + b;
      assert t[|t| - 1] == b[|b| - 1] == '\n';
      assert Closing[|Closing| - 1] == '.';
      if |t| >= |Closing| {
        assert t[|t| - |Closing|..][|Closing| - 1] == t[|t| - 1];
      }
    }
  }

  /** App_local.tsx's local chatbot: `handleSend`. */
  function LocalSend(st: ChatState, reply: Reply<ClientResult>): (r: ChatState)
    ensures IsBlank(st.input, Js) ==> r == st
    ensures !IsBlank(st.input, Js) ==>
              && |r.messages| == |st.messages| + 2
              && r.messages[..|st.messages|] == st.messages
              && r.messages[|st.messages|] == ChatMessage(User, st.input)
              && r.input == "" && !r.isLoading
              && match Interpret(reply, ChatFallback)
                 case Answered(res) =>
                   r.messages[|st.messages| + 1] == ChatMessage(Bot, FormatBotText(res)) && r.error.None?
                 case Failed(m) =>
                   r.messages[|st.messages| + 1] == ChatMessage(Bot, ErrorText(m)) && r.error == Some(m)
  {
    if IsBlank(st.input, Js) then st
    else match Interpret(reply, ChatFallback)
      case Answered(res) => Exchange(st, ChatMessage(Bot, FormatBotText(res)), None)
      case Failed(m) => Exchange(st, ChatMessage(Bot, ErrorText(m)), Some(m))
  }

  /** A session of the local chatbot: each step types an input and sends it. */
  function LocalSession(st: ChatState, steps: seq<Step<ClientResult>>): ChatState
    decreases |steps|
  {
    if steps == [] then st
    else LocalSession(LocalSend(st.(input := steps[0].input), steps[0].reply), steps[1..])
  }

  /** The local transcript is append-only as well: a session keeps every
      earlier message and adds two per non-blank send. */
  lemma {:induction false} LocalSessionGrowth(st: ChatState, steps: seq<Step<ClientResult>>)
    ensures st.messages <= LocalSession(st, steps).messages
    ensures |LocalSession(st, steps).messages| == |st.messages| + 2 * NonBlankSends(steps)
    decreases |steps|
  {
    if steps != [] {
      var next := LocalSend(st.(input := steps[0].input), steps[0].reply);
      LocalSessionGrowth(next, steps[1..]);
    }
  }

  /** The messages a local session adds come in (user, bot) pairs. */
  lemma {:induction false} LocalSessionAlternates(st: ChatState, steps: seq<Step<ClientResult>>)
    ensures Pairs(LocalSession(st, steps).messages, |st.messages|, NonBlankSends(steps))
    decreases |steps|
  {
    if steps != [] {
      var st' := st.(input := steps[0].input);
      var next := LocalSend(st', steps[0].reply);
      var n := |st.messages|;
      var ms := LocalSession(next, steps[1..]).messages;
      assert LocalSession(st, steps).messages == ms;
      LocalSessionAlternates(next, steps[1..]);
      if !IsBlank(steps[0].input, Js) {
        LocalSessionGrowth(next, steps[1..]);
        assert next.messages <= ms;
        assert ms[n] == next.messages[n];
        assert ms[n + 1] == next.messages[n + 1];
        PairsCons(ms, n, NonBlankSends(steps[1..]));
      } else {
        assert next == st';
      }
    }
  }

  /** The orchestrator's diagnoses as the client reads them: objects whose
      `name` is the disease name. */
  function DiagnosisItems(ds: seq<Analysis.Diagnosis>): seq<Item>
  {
    seq(|ds|, i requires 0 <= i < |ds| => Obj(Some(ds[i].name)))
  }

  /** The `result` object of a `/api/chat` response as App_local.tsx reads
      it: the analysis dictionary the server passes through, with its
      diagnoses as named objects. */
  function ClientView(d: Api.ResultDict): (r: ClientResult)
    ensures r.triage == d.triage
    ensures r.symptoms == d.symptomsExtracted
    ensures d.diagnoses.None? <==> r.diagnoses.None?
    ensures d.diagnoses.Some? ==> r.diagnoses == Some(DiagnosisItems(d.diagnoses.value))
  {
    ClientResult(match d.diagnoses
                 case None => None
                 case Some(ds) => Some(DiagnosisItems(ds)),
                 d.symptomsExtracted, d.triage)
  }

  /** An analyzer whose dictionary has a `triage` entry with a level gets
      a triage line right after the header. */
  lemma TriageKeyIsShown(d: Api.ResultDict)
    requires d.triage.Some? && Truthy(d.triage.value.level)
    ensures var t := FormatBotText(ClientView(d));
            var line := "\U{26A0}\U{FE0F} Triage Level: " + d.triage.value.level.value + "\n";
            StartsWith(t, Header + line)
  {
    var cv := ClientView(d);
    var line := "\U{26A0}\U{FE0F} Triage Level: " + d.triage.value.level.value + "\n";
    var tb := TriageBlock(cv.triage);
    var sb := SymptomBlock(cv.symptoms.GetOr([]));
    var db := DiagnosisBlock(cv.diagnoses.GetOr([]));
    assert FormatBotText(cv) == Header + tb + sb + db;
    assert StartsWith(tb, line);
    PrefixAfter(Header, tb, line);
    PrefixBefore(Header + tb, sb, Header + line);
    PrefixBefore(Header + tb + sb, db, Header + line);
  }

  lemma PrefixAfter(h: string, s: string, p: string)
    requires StartsWith(s, p)
    ensures StartsWith(h + s, h + p)
  {
    assert (h + s)[..|h + p|] == h + s[..|p|];
  }

  lemma PrefixBefore(s: string, rest: string, p: string)
    requires StartsWith(s, p)
    ensures StartsWith(s + rest, p)
  {
    assert (s + rest)[..|p|] == s[..|p|];
  }

  /** Fed an orchestrator analysis, App_local.tsx never shows a triage line,
      even when the analysis carries a triage level: the orchestrator's
      dictionary names it `overall_triage`, and has no `triage` key. */
  lemma OrchestratorResultShowsNoTriage(an: Analysis.Result)
    ensures FormatBotText(ClientView(Api.FromAnalysis(an)))
              == Header + SymptomBlock(an.symptomsExtracted) + DiagnosisBlock(DiagnosisItems(an.diagnoses))
  {
    var cv := ClientView(Api.FromAnalysis(an));
    assert cv.triage.None?;
    assert TriageBlock(cv.triage) == "";
    assert cv.symptoms.GetOr([]) == an.symptomsExtracted;
    assert cv.diagnoses.GetOr([]) == DiagnosisItems(an.diagnoses);
    assert Header + "" == Header;
  }
}
