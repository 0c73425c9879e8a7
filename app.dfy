/** The chat front end's request handler and its two small helpers: `respond`
    (rate limit, validate, session, answer, store) with the chat updates it
    yields, `export_chat` and `clear_chat`. The rate limiter and the session
    store are the modelled components; the clock, the generated session id,
    the vector index and the timeouts are inputs. */
module App {
  import opened Text
  import opened Outcomes
  import opened Validation
  import opened RagPipeline
  import opened Sessions
  import opened RateLimiting

  /** A chat message as the UI holds it: a role and the text shown. */
  datatype ChatMessage = ChatMessage(role: string, content: string)

  const UserRole := "user"
  const AssistantRole := "assistant"
  const Anonymous := "anonymous"
  const Thinking := "\U{1F914} Thinking..."
  const GenericError := "\U{274C} An error occurred. Our team has been notified."
  const AnalysisHeading := "##  Analysis\n"
  const SupportingHeading := "##  Supporting Complaints\n"
  /** How much of a complaint's text a source entry previews. */
  const PreviewLength := 100
  const NothingToExport := "No chat history to export"
  const ReportTitle := "# CrediTrust Complaint Analysis Report\n\n"

  function Reply(content: string): ChatMessage {
    ChatMessage(AssistantRole, content)
  }

  // ---------------------------------------------------------------- response

  /** `" (company)"` after the product, unless the company is "Unknown". */
  function CompanyNote(company: string): (r: string)
    ensures r == "" <==> company == Unknown
    ensures company != Unknown ==> Contains(r, company)
  {
    if company != Unknown then Between(" (", company, ")") else ""
  }

  /** A source entry up to its text preview: the numbered product, the
      company note, the relevance to two decimals. */
  function EntryHead(position: nat, c: Complaint): string {
    Between("**" + NatToString(position) + ". " + c.product + "**", CompanyNote(c.company),
            "\n*Relevance: " + FormatFixed2(c.similarity) + "*\n_")
  }

  /** The lines one supporting complaint gets, numbered from 1. */
  function SourceEntry(position: nat, c: Complaint): string {
    Between(EntryHead(position, c), Take(c.text, PreviewLength), "..._\n\n")
  }

  /** The analysis, then the supporting complaints when there are any. */
  function ResponseText(answer: string, sources: seq<Complaint>): string {
    AnalysisHeading + answer + "\n\n"
      + (if sources == [] then "" else SupportingHeading + ConcatNumbered(sources, SourceEntry))
  }

  method FormatResponse(answer: string, sources: seq<Complaint>) returns (response: string)
    ensures response == ResponseText(answer, sources)
  {
    response := AnalysisHeading + answer + "\n\n";
    if sources == [] {
      return;
    }
    var entries := "";
    for i := 0 to |sources|
      invariant entries == ConcatNumbered(sources[..i], SourceEntry)
    {
      ConcatNumberedSnoc(sources, SourceEntry, i);
      entries := entries + SourceEntry(i + 1, sources[i]);
    }
    assert sources[..|sources|] == sources;
    response := response + (SupportingHeading + entries);
  }

  /** Every response opens with the analysis; without sources that is all of
      it, and with sources it lists every one of them. */
  lemma ResponseLists(answer: string, sources: seq<Complaint>)
    ensures AnalysisHeading + answer + "\n\n" <= ResponseText(answer, sources)
    ensures sources == [] ==> ResponseText(answer, sources) == AnalysisHeading + answer + "\n\n"
    ensures forall i :: 0 <= i < |sources| ==>
      Contains(ResponseText(answer, sources), SourceEntry(i + 1, sources[i]))
  {
    var head := AnalysisHeading + answer + "\n\n";
    forall i | 0 <= i < |sources|
      ensures Contains(ResponseText(answer, sources), SourceEntry(i + 1, sources[i]))
    {
      ConcatNumberedContains(sources, SourceEntry, i);
      ContainsInside(head + SupportingHeading, ConcatNumbered(sources, SourceEntry), [], SourceEntry(i + 1, sources[i]));
      AppendAssociative(head, SupportingHeading, ConcatNumbered(sources, SourceEntry));
      assert head + SupportingHeading + ConcatNumbered(sources, SourceEntry) + [] == ResponseText(answer, sources);
    }
  }

  /** A source entry previews at most the first 100 characters of the text,
      and names the company exactly when it is known. */
  lemma SourceEntryShows(position: nat, c: Complaint)
    ensures Contains(SourceEntry(position, c), Take(c.text, PreviewLength))
    ensures c.company != Unknown ==> Contains(SourceEntry(position, c), c.company)
  {
    if c.company != Unknown {
      var head := EntryHead(position, c);
      BetweenContainsHead(head, Take(c.text, PreviewLength), "..._\n\n");
      ContainsTransitive(head, CompanyNote(c.company), c.company);
      ContainsTransitive(SourceEntry(position, c), head, c.company);
    }
  }

  // ---------------------------------------------------------------- respond

  /** The text shown for an exception `respond` catches: a `ValueError`'s own
      message behind a warning sign, anything else as a generic apology. */
  function ErrorText(e: Exception): string {
    match e
    case ValueError(message) => "\U{26A0}\U{FE0F} " + message
    case TimeoutError(_) => GenericError
  }

  /** The rate-limit key: `session_id or "anonymous"`. */
  function ClientId(sessionId: Option<string>): (r: string)
    ensures sessionId.Some? && sessionId.value != "" ==> r == sessionId.value
    ensures sessionId == None || sessionId == Some("") ==> r == Anonymous
    ensures r != ""
  {
    if sessionId.Some? && sessionId.value != "" then sessionId.value else Anonymous
  }

  /** The assistant's final message for an accepted question, from what the
      pipeline's `answer_question` returned or raised. */
  function FinalMessage(outcome: Outcome<Answered>): string {
    match outcome
    case Ok(a) => ResponseText(a.answer, a.sources)
    case Raised(e) => ErrorText(e)
  }

  /** The chat histories `respond` yields, given whether the rate limiter let
      the request through. A refused request yields nothing: its message is
      the generator's return value, which the UI never shows. */
  function Yielded(allowed: bool, message: string, history: seq<ChatMessage>,
                   pipeline: string -> Outcome<Answered>): seq<seq<ChatMessage>> {
    if !allowed then []
    else match ValidateQuestion(message)
      case Raised(e) => [history + [Reply(ErrorText(e))]]
      case Ok(question) =>
        var asked := history + [ChatMessage(UserRole, question)];
        [asked + [Reply(Thinking)], asked + [Reply(FinalMessage(pipeline(question)))]]
  }

  /** What the session records for an accepted question: one exchange,
      exactly when the pipeline answered. */
  function Stored(question: string, outcome: Outcome<Answered>, now: real): seq<Exchange> {
    match outcome
    case Raised(_) => []
    case Ok(a) => [Exchange(question, ResponseText(a.answer, a.sources), now)]
  }

  /** The exchange `respond` records in the session. */
  function Recorded(message: string, pipeline: string -> Outcome<Answered>, now: real): seq<Exchange> {
    match ValidateQuestion(message)
    case Raised(_) => []
    case Ok(question) => Stored(question, pipeline(question), now)
  }

  /** The part of `respond` after the "Thinking..." update: format the
      pipeline's outcome and, when it answered, record it in the session. */
  method Conclude(question: string, outcome: Outcome<Answered>, session: Session, now: real)
    returns (message: string)
    modifies session
    ensures message == FinalMessage(outcome)
    ensures session.history == old(session.history) + Stored(question, outcome, now)
  {
    if outcome.Raised? {
      return ErrorText(outcome.error);
    }
    message := FormatResponse(outcome.value.answer, outcome.value.sources);
    session.AddMessage(question, message, now);
  }

  /** `respond(message, history, session_id)`, with the pipeline's
      `answer_question` as the function `pipeline`. The rate limiter is
      consulted first and alone decides whether anything else happens. */
  method Respond(message: string, history: seq<ChatMessage>, sessionId: Option<string>,
                 limiter: RateLimiter, manager: SessionManager,
                 pipeline: string -> Outcome<Answered>, now: real, freshId: string)
    returns (updates: seq<seq<ChatMessage>>)
    requires manager.Valid()
    modifies limiter, manager, manager.sessions.Values
    ensures manager.Valid()
    ensures var d := Decide(old(limiter.Requests(ClientId(sessionId))), now, limiter.maxRequests, limiter.windowSeconds);
      && limiter.requests == old(limiter.requests)[ClientId(sessionId) := d.kept]
      && updates == Yielded(d.allowed, message, history, pipeline)
      && (!d.allowed ==> manager.sessions == old(manager.sessions))
    ensures updates != [] ==> Handled(manager, message, sessionId, pipeline, now, freshId)
    ensures forall s :: s in old(manager.sessions.Values) && s.history != old(s.history) ==>
      updates != [] && ValidateQuestion(message).Ok? && s == manager.sessions[ChosenId(sessionId, freshId)]
  {
    var allowed := limiter.IsAllowed(ClientId(sessionId), now);
    if !allowed {
      return [];
    }
    updates := Serve(message, history, sessionId, manager, pipeline, now, freshId);
  }

  /** The state a handled request leaves the session store in: a rejected
      question leaves it alone; an accepted one is filed under its session
      id, and no other id changes. It goes to the stored session when that
      was live and otherwise to a new session created now with the default
      lifetime, with the exchange recorded when there was an answer. */
  twostate predicate Handled(manager: SessionManager, message: string, sessionId: Option<string>,
                             pipeline: string -> Outcome<Answered>, now: real, freshId: string)
    reads manager, manager.sessions.Values
  {
    match ValidateQuestion(message)
    case Raised(_) => manager.sessions == old(manager.sessions)
    case Ok(question) =>
      var key := ChosenId(sessionId, freshId);
      var reused := old(manager.Reusable(sessionId, now));
      && key in manager.sessions
      && manager.sessions == old(manager.sessions)[key := manager.sessions[key]]
      && (reused ==> manager.sessions == old(manager.sessions))
      && (!reused ==>
            && fresh(manager.sessions[key])
            && manager.sessions[key].createdAt == now
            && manager.sessions[key].expiresAt == now + DefaultTtlHours as real * SecondsPerHour)
      && manager.sessions[key].history
         == (if reused then old(manager.sessions[key].history) else []) + Stored(question, pipeline(question), now)
  }

  /** `respond` once the rate limiter has let the request through: validate,
      then fetch the session, show "Thinking...", ask the pipeline and show
      its answer or error. */
  method Serve(message: string, history: seq<ChatMessage>, sessionId: Option<string>,
               manager: SessionManager, pipeline: string -> Outcome<Answered>, now: real, freshId: string)
    returns (updates: seq<seq<ChatMessage>>)
    requires manager.Valid()
    modifies manager, manager.sessions.Values
    ensures manager.Valid()
    ensures updates == Yielded(true, message, history, pipeline)
    ensures Handled(manager, message, sessionId, pipeline, now, freshId)
    ensures forall s :: s in old(manager.sessions.Values) && s.history != old(s.history) ==>
      ValidateQuestion(message).Ok? && s == manager.sessions[ChosenId(sessionId, freshId)]
  {
    var validated := ValidateQuestion(message);
    if validated.Raised? {
      return [history + [Reply(ErrorText(validated.error))]];
    }
    var question := validated.value;
    var session := manager.GetOrCreate(sessionId, now, freshId);
    var asked := history + [ChatMessage(UserRole, question)];
    var final := Conclude(question, pipeline(question), session, now);
    updates := [asked + [Reply(Thinking)], asked + [Reply(final)]];
  }

  /** A refused request yields nothing; a rejected question yields one update
      with the warning; an accepted one yields exactly two, the question with
      "Thinking..." and then the question with the final message. */
  lemma RespondUpdates(allowed: bool, message: string, history: seq<ChatMessage>,
                       pipeline: string -> Outcome<Answered>)
    ensures var u := Yielded(allowed, message, history, pipeline);
      && (u == [] <==> !allowed)
      && (allowed && ValidateQuestion(message).Raised? ==>
            u == [history + [Reply("\U{26A0}\U{FE0F} " + ValidateQuestion(message).error.message)]])
      && (allowed && ValidateQuestion(message).Ok? ==>
            var asked := history + [ChatMessage(UserRole, ValidateQuestion(message).value)];
            var final := FinalMessage(pipeline(ValidateQuestion(message).value));
            u == [asked + [Reply(Thinking)], asked + [Reply(final)]])
  {
  }

  /** A question that passes validation is never refused by the pipeline as
      empty: without a timeout it always gets an analysis, and a timeout
      shows only the generic apology. */
  lemma AcceptedQuestionIsAnswered(message: string, index: Index, retrievalOverran: bool, overran: bool)
    requires ValidateQuestion(message).Ok?
    ensures var q := ValidateQuestion(message).value;
      && (!retrievalOverran && !overran ==> Answer(q, index, false, false).Ok?)
      && (!Answer(q, index, retrievalOverran, overran).Ok? ==>
            FinalMessage(Answer(q, index, retrievalOverran, overran)) == GenericError)
  {
    var q := ValidateQuestion(message).value;
    ValidatedShape(message);
    StripEmpty(q);
  }

  // ---------------------------------------------------------------- export

  /** One message's part of the report; `position` counts every message, so
      assistant messages use up numbers too. */
  function ExportEntry(position: nat, m: ChatMessage): string {
    if m.role == UserRole then "## Q" + NatToString(position) + ": " + m.content + "\n\n"
    else if m.role == AssistantRole && !Contains(m.content, "Thinking") then
      "### Answer:\n" + m.content + "\n\n---\n\n"
    else ""
  }

  function ExportText(history: seq<ChatMessage>): string {
    if history == [] then NothingToExport else ReportTitle + ConcatNumbered(history, ExportEntry)
  }

  method ExportChat(history: seq<ChatMessage>) returns (content: string)
    ensures content == ExportText(history)
  {
    if history == [] {
      return NothingToExport;
    }
    content := ReportTitle;
    for i := 0 to |history|
      invariant content == ReportTitle + ConcatNumbered(history[..i], ExportEntry)
    {
      ConcatNumberedSnoc(history, ExportEntry, i);
      AppendAssociative(ReportTitle, ConcatNumbered(history[..i], ExportEntry), ExportEntry(i + 1, history[i]));
      content := content + ExportEntry(i + 1, history[i]);
    }
    assert history[..|history|] == history;
  }

  /** An empty chat exports as a notice; otherwise every user message
      appears as a question numbered by its position in the whole chat, and
      every assistant message without "Thinking" appears as an answer. */
  lemma ExportLists(history: seq<ChatMessage>)
    ensures history == [] ==> ExportText(history) == NothingToExport
    ensures history != [] ==> ReportTitle <= ExportText(history)
    ensures forall i :: 0 <= i < |history| && history[i].role == UserRole ==>
      Contains(ExportText(history), "## Q" + NatToString(i + 1) + ": " + history[i].content)
    ensures forall i ::
      (0 <= i < |history| && history[i].role == AssistantRole && !Contains(history[i].content, "Thinking"))
      ==> Contains(ExportText(history), history[i].content)
  {
    forall i | 0 <= i < |history|
      ensures Contains(ExportText(history), ExportEntry(i + 1, history[i]))
    {
      ConcatNumberedContains(history, ExportEntry, i);
      ContainsInside(ReportTitle, ConcatNumbered(history, ExportEntry), [], ExportEntry(i + 1, history[i]));
      assert ReportTitle + ConcatNumbered(history, ExportEntry) + [] == ExportText(history);
    }
    forall i | 0 <= i < |history| && history[i].role == UserRole
      ensures Contains(ExportText(history), "## Q" + NatToString(i + 1) + ": " + history[i].content)
    {
      var asked := "## Q" + NatToString(i + 1) + ": " + history[i].content;
      ContainsSelf(asked);
      ContainsInside([], asked, "\n\n", asked);
      assert [] + asked + "\n\n" == ExportEntry(i + 1, history[i]);
      ContainsTransitive(ExportText(history), ExportEntry(i + 1, history[i]), asked);
    }
    forall i | 0 <= i < |history| && history[i].role == AssistantRole && !Contains(history[i].content, "Thinking")
      ensures Contains(ExportText(history), history[i].content)
    {
      var text := history[i].content;
      ContainsSelf(text);
      ContainsInside("### Answer:\n", text, "\n\n---\n\n", text);
      ContainsTransitive(ExportText(history), ExportEntry(i + 1, history[i]), text);
    }
  }

  /** Exporting a chat one message longer adds exactly that message's entry
      after the report so far. */
  lemma ExportAppends(chat: seq<ChatMessage>, m: ChatMessage)
    ensures ExportText(chat + [m])
         == (if chat == [] then ReportTitle else ExportText(chat)) + ExportEntry(|chat| + 1, m)
  {
    ConcatNumberedAppend(chat, m, ExportEntry);
    AppendAssociative(ReportTitle, ConcatNumbered(chat, ExportEntry), ExportEntry(|chat| + 1, m));
  }

  /** So a "Thinking..." placeholder, or a message of any role but user and
      assistant, adds nothing to a non-empty chat's export. */
  lemma ExportSkips(chat: seq<ChatMessage>, m: ChatMessage)
    requires chat != []
    requires m.role != UserRole && (m.role != AssistantRole || Contains(m.content, "Thinking"))
    ensures ExportText(chat + [m]) == ExportText(chat)
  {
    ExportAppends(chat, m);
    assert ExportEntry(|chat| + 1, m) == "";
    assert ExportText(chat) + "" == ExportText(chat);
  }

  /** `clear_chat`: an empty history. */
  function ClearChat(): (r: seq<ChatMessage>)
    ensures r == [] && ExportText(r) == NothingToExport
  {
    []
  }
}
