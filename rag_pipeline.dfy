/** The retrieval-and-answer pipeline of the complaint chatbot (class
    RAGSystem). The vector index is a function parameter, and each
    `@timeout` boundary is an `overran` flag saying whether its time budget
    ran out. */
module RagPipeline {
  import opened Text
  import opened Outcomes

  /** One retrieved complaint excerpt. */
  datatype Complaint = Complaint(
    id: nat, text: string, product: string, category: string,
    issue: string, company: string, similarity: real)

  type Metadata = map<string, string>

  /** The index's reply to a single query text: that query's parallel lists
      of documents, metadata maps and distances, or a failure of the query. */
  datatype IndexReply =
    | Hits(documents: seq<string>, metadatas: seq<Metadata>, distances: seq<real>)
    | QueryFailed(reason: string)

  /** The vector index, given the query text and the number of results asked for. */
  type Index = (string, int) -> IndexReply

  /** An index that hands back at most `k` documents when asked for `k`. */
  ghost predicate ReturnsAtMost(index: Index, k: int) {
    forall q :: index(q, k).Hits? ==> |index(q, k).documents| <= k
  }

  const Unknown := "Unknown"
  const EmptyQuestion := "Question cannot be empty"
  const RetrievalTimedOut := "Complaint retrieval timed out"
  const AnswerTimedOut := "Answer generation timed out"
  /** The number of complaints `answer_question` retrieves. */
  const AnswerK := 3
  /** How much of a complaint's text the prompt quotes. */
  const ExcerptLength := 300
  const NoCompanies := "multiple financial institutions"

  // ---------------------------------------------------------------- retrieval

  /** `meta.get(key, 'Unknown')`. */
  function MetaOr(meta: Metadata, key: string): string {
    if key in meta then meta[key] else Unknown
  }

  /** A record field taken from metadata: the stored value verbatim when the
      key is present (even when it is empty), "Unknown" when it is missing. */
  predicate CopiedFrom(value: string, meta: Metadata, key: string) {
    (key in meta ==> value == meta[key]) && (key !in meta ==> value == Unknown)
  }

  /** The record built from the hit at 0-based position `i`. */
  function Record(reply: IndexReply, i: nat): Complaint
    requires reply.Hits? && i < |reply.documents| && i < |reply.metadatas| && i < |reply.distances|
  {
    var meta := reply.metadatas[i];
    Complaint(i + 1, reply.documents[i], MetaOr(meta, "product"), MetaOr(meta, "product_category"),
              MetaOr(meta, "issue"), MetaOr(meta, "company"), 1.0 - reply.distances[i])
  }

  /** Every document has its metadata and its distance; otherwise the mapping
      loop stops on an IndexError. */
  predicate WellFormed(reply: IndexReply) {
    reply.Hits? && |reply.documents| <= |reply.metadatas| && |reply.documents| <= |reply.distances|
  }

  /** The records of one reply. A failed query, or a reply the mapping loop
      cannot finish, is absorbed by the handler around it and gives none. */
  function Records(reply: IndexReply): seq<Complaint> {
    if WellFormed(reply)
    then seq(|reply.documents|, i requires 0 <= i < |reply.documents| => Record(reply, i))
    else []
  }

  /** `not question or not question.strip()`. */
  predicate IsBlank(question: string) {
    Strip(question) == []
  }

  /** `retrieve_complaints(question, k)` as its caller sees it, through its
      15-second timeout. */
  function Retrieve(question: string, k: int, index: Index, overran: bool): Outcome<seq<Complaint>> {
    Supervised(overran,
      if IsBlank(question) then Raised(ValueError(EmptyQuestion))
      else Ok(Records(index(Strip(question), k))),
      RetrievalTimedOut)
  }

  method RetrieveComplaints(question: string, k: int, index: Index, overran: bool)
    returns (r: Outcome<seq<Complaint>>)
    ensures r == Retrieve(question, k, index, overran)
  {
    if overran {
      return Raised(TimeoutError(RetrievalTimedOut));
    }
    if IsBlank(question) {
      return Raised(ValueError(EmptyQuestion));
    }
    var complaints := MapReply(index(Strip(question), k));
    return Ok(complaints);
  }

  /** The guarded part of `retrieve_complaints`: the loop that turns hits into
      records, with the handler that turns any failure into no records. */
  method MapReply(reply: IndexReply) returns (complaints: seq<Complaint>)
    ensures complaints == Records(reply)
  {
    if reply.QueryFailed? {
      return [];
    }
    complaints := [];
    var i := 0;
    while i < |reply.documents|
      invariant i <= |reply.documents| && i <= |reply.metadatas| && i <= |reply.distances|
      invariant |complaints| == i
      invariant forall j :: 0 <= j < i ==> complaints[j] == Record(reply, j)
    {
      if i == |reply.metadatas| || i == |reply.distances| {
        return [];
      }
      complaints := complaints + [Record(reply, i)];
      i := i + 1;
    }
    assert complaints == Records(reply);
  }

  /** Outside a timeout, retrieval raises exactly when the question is blank,
      and then only the empty-question ValueError; every failure of the query
      or of the mapping is swallowed into an empty result. */
  lemma RetrieveRaisesOnlyWhenBlank(question: string, k: int, index: Index)
    ensures Retrieve(question, k, index, false).Raised?
        <==> forall i :: 0 <= i < |question| ==> IsSpace(question[i])
    ensures Retrieve(question, k, index, false).Raised?
        ==> Retrieve(question, k, index, false).error == ValueError(EmptyQuestion)
    ensures !IsBlank(question) && !WellFormed(index(Strip(question), k))
        ==> Retrieve(question, k, index, false) == Ok([])
  {
    StripEmpty(question);
  }

  /** A blank question is refused before the index is consulted: the outcome
      is the same whatever the index would answer. */
  lemma BlankIgnoresIndex(question: string, k: int, index1: Index, index2: Index, overran: bool)
    requires forall i :: 0 <= i < |question| ==> IsSpace(question[i])
    ensures Retrieve(question, k, index1, overran) == Retrieve(question, k, index2, overran)
  {
    StripEmpty(question);
  }

  /** One record per returned document, in index order, numbered 1..n, with
      the metadata fields copied or defaulted and similarity `1 - distance`. */
  lemma RecordsFollowHits(reply: IndexReply)
    requires WellFormed(reply)
    ensures |Records(reply)| == |reply.documents|
    ensures forall i :: 0 <= i < |reply.documents| ==>
      var c := Records(reply)[i];
      var meta := reply.metadatas[i];
      && c.id == i + 1
      && c.text == reply.documents[i]
      && CopiedFrom(c.product, meta, "product")
      && CopiedFrom(c.category, meta, "product_category")
      && CopiedFrom(c.issue, meta, "issue")
      && CopiedFrom(c.company, meta, "company")
      && c.similarity == 1.0 - reply.distances[i]
  {
  }

  /** Records keep the index's ranking: nearest first stays most similar first. */
  lemma RecordsKeepRanking(reply: IndexReply)
    requires WellFormed(reply)
    requires forall i, j :: 0 <= i < j < |reply.documents| ==> reply.distances[i] <= reply.distances[j]
    ensures forall i, j :: 0 <= i < j < |Records(reply)| ==>
      Records(reply)[i].similarity >= Records(reply)[j].similarity
  {
  }

  // ---------------------------------------------------------------- prompt

  const Preamble :=
    "You are a helpful financial analyst "
    + "assistant at CrediTrust Financial.\n\n"
  const ContextHeading := "RELEVANT CUSTOMER COMPLAINTS:\n"
  const QuestionLabel := "\n\nUSER QUESTION: "
  const Instructions :=
    "\n\n"
    + "INSTRUCTIONS:\n"
    + "1. Analyze the complaints above\n"
    + "2. Summarize the main issues "
    + "mentioned\n"
    + "3. Group similar complaints "
    + "together\n"
    + "4. Mention which financial "
    + "products and companies are "
    + "affected\n"
    + "5. Base your answer ONLY on the "
    + "provided complaints\n"
    + "6. Be specific and actionable\n\n"
    + "ANALYSIS AND ANSWER:\n"

  /** The prompt when nothing was retrieved. */
  function BarePrompt(question: string): string {
    "Question: " + question + "\n\nNo relevant complaints found."
  }

  /** `"[Complaint #id - product - company]"` on a line of its own. */
  function Header(c: Complaint): string {
    "\n[Complaint #" + NatToString(c.id) + " - " + c.product + " - " + c.company + "]\n"
  }

  /** `text[:300] + "..."`: at most the first 300 characters, always followed
      by an ellipsis. */
  function Excerpt(text: string): (r: string)
    ensures |r| == (if |text| < ExcerptLength then |text| else ExcerptLength) + 3
    ensures r[..|r| - 3] <= text && r[|r| - 3..] == "..."
  {
    Take(text, ExcerptLength) + "..."
  }

  /** The context lines one record contributes. */
  function Block(c: Complaint): string {
    Header(c) + "Similarity: " + FormatFixed2(c.similarity) + "\n"
      + "Issue: " + c.issue + "\n"
      + "Text: " + Excerpt(c.text) + "\n"
  }

  /** `Block`, as a piece of the numbered fold (the position is not used:
      the header shows the record's own id). */
  function BlockAt(position: nat, c: Complaint): string {
    Block(c)
  }

  /** The blocks of all records, in order. */
  function Blocks(cs: seq<Complaint>): string {
    ConcatNumbered(cs, BlockAt)
  }

  /** The context section: its heading, then one block per record. */
  function Context(cs: seq<Complaint>): string {
    ContextHeading + Blocks(cs)
  }

  function PromptText(question: string, cs: seq<Complaint>): string {
    if cs == [] then BarePrompt(question)
    else Preamble + Context(cs) + QuestionLabel + question + Instructions
  }

  method CreatePrompt(question: string, cs: seq<Complaint>) returns (prompt: string)
    ensures prompt == PromptText(question, cs)
    ensures cs == [] ==> prompt == "Question: " + question + "\n\nNo relevant complaints found."
  {
    if cs == [] {
      return "Question: " + question + "\n\nNo relevant complaints found.";
    }
    var context := ContextHeading;
    for i := 0 to |cs|
      invariant context == Context(cs[..i])
    {
      ConcatNumberedSnoc(cs, BlockAt, i);
      AppendAssociative(ContextHeading, Blocks(cs[..i]), Block(cs[i]));
      context := context + Block(cs[i]);
    }
    assert cs[..|cs|] == cs;
    prompt := Preamble + context + QuestionLabel + question + Instructions;
  }

  /** Each block opens with its record's header line. */
  lemma BlockStartsWithHeader(c: Complaint)
    ensures Header(c) <= Block(c)
  {
  }

  /** A prompt with records quotes each record's block. */
  lemma PromptQuotesRecords(question: string, cs: seq<Complaint>, i: nat)
    requires i < |cs|
    ensures Contains(PromptText(question, cs), Block(cs[i]))
  {
    ConcatNumberedContains(cs, BlockAt, i);
    ContainsInside(Preamble + ContextHeading, Blocks(cs), QuestionLabel + question + Instructions, Block(cs[i]));
    AppendAssociative(Preamble, ContextHeading, Blocks(cs));
    var opening := Preamble + Context(cs);
    AppendAssociative(opening, QuestionLabel, question);
    AppendAssociative(opening, QuestionLabel + question, Instructions);
  }

  /** The context sits in the prompt right after the fixed opening. */
  lemma PromptFramesContext(question: string, cs: seq<Complaint>)
    requires cs != []
    ensures |Preamble| + |Context(cs)| <= |PromptText(question, cs)|
    ensures PromptText(question, cs)[|Preamble|..|Preamble| + |Context(cs)|] == Context(cs)
  {
    var p := PromptText(question, cs);
    var opening := Preamble + Context(cs);
    PrefixOfAppend(opening, QuestionLabel);
    PrefixOfAppend(opening + QuestionLabel, question);
    PrefixOfAppend(opening + QuestionLabel + question, Instructions);
    PrefixTransitive(opening, opening + QuestionLabel, opening + QuestionLabel + question);
    PrefixTransitive(opening, opening + QuestionLabel + question, p);
    SliceAfterPrefix(p, Preamble, Context(cs));
  }

  /** Record `i`'s block, and so its `[Complaint #id - product - company]`
      header, follows in the prompt right after the preamble, the context
      heading and the blocks of the records before it: the block is the
      slice of the prompt that starts at offset `|Preamble + ContextHeading
      + Blocks(cs[..i])|` (see `Text.SliceAfterPrefix`). */
  lemma BlockInPrompt(question: string, cs: seq<Complaint>, i: nat)
    requires i < |cs|
    ensures Preamble + ContextHeading + Blocks(cs[..i]) + Block(cs[i]) <= PromptText(question, cs)
  {
    PromptParts(question, cs);
    BlockInFrame(PromptText(question, cs), Preamble + ContextHeading, QuestionLabel + question + Instructions, cs, i);
  }

  /** Hence record `i`'s header too starts at that offset. */
  lemma HeaderInPrompt(question: string, cs: seq<Complaint>, i: nat)
    requires i < |cs|
    ensures Preamble + ContextHeading + Blocks(cs[..i]) + Header(cs[i]) <= PromptText(question, cs)
  {
    PromptParts(question, cs);
    BlockInFrame(PromptText(question, cs), Preamble + ContextHeading, QuestionLabel + question + Instructions, cs, i);
  }

  /** The same placement inside any text that wraps the blocks of all records. */
  lemma BlockInFrame(p: string, front: string, back: string, cs: seq<Complaint>, i: nat)
    requires i < |cs| && p == front + Blocks(cs) + back
    ensures front + Blocks(cs[..i]) + Block(cs[i]) <= p
    ensures front + Blocks(cs[..i]) + Header(cs[i]) <= p
  {
    BlocksBefore(cs, i);
    BlockStartsWithHeader(cs[i]);
    NestedPrefix(p, front, Blocks(cs[..i]), Block(cs[i]), Header(cs[i]), Blocks(cs), back);
  }

  /** The blocks of the records before `i`, then record `i`'s block, begin
      the blocks of all records. */
  lemma BlocksBefore(cs: seq<Complaint>, i: nat)
    requires i < |cs|
    ensures Blocks(cs[..i]) + Block(cs[i]) <= Blocks(cs)
  {
    ConcatNumberedSnoc(cs, BlockAt, i);
    ConcatNumberedPrefix(cs, BlockAt, i + 1);
  }

  /** A prompt with records, cut around its blocks. */
  lemma PromptParts(question: string, cs: seq<Complaint>)
    requires cs != []
    ensures PromptText(question, cs)
         == (Preamble + ContextHeading) + Blocks(cs) + (QuestionLabel + question + Instructions)
  {
    Regroup(Preamble, ContextHeading, Blocks(cs), QuestionLabel, question, Instructions);
  }

  /** Later records' blocks start strictly later in the prompt: the headers
      appear one per record, in input order. */
  lemma BlockOffsetsIncrease(cs: seq<Complaint>, i: nat, j: nat)
    requires i < j <= |cs|
    ensures |Preamble + ContextHeading + Blocks(cs[..i])| < |Preamble + ContextHeading + Blocks(cs[..j])|
  {
    forall k | i <= k < j
      ensures |BlockAt(k + 1, cs[k])| > 0
    {
      BlockStartsWithHeader(cs[k]);
    }
    ConcatNumberedGrows(cs, BlockAt, i, j);
  }

  /** A prompt with records names the complaint section and quotes the
      question after its label; every prompt contains the question. */
  lemma PromptMentions(question: string, cs: seq<Complaint>)
    ensures Contains(PromptText(question, cs), question)
    ensures cs != [] ==> Contains(PromptText(question, cs), "RELEVANT CUSTOMER COMPLAINTS")
    ensures cs != [] ==> Contains(PromptText(question, cs), QuestionLabel + question)
  {
    ContainsSelf(question);
    if cs == [] {
      ContainsInside("Question: ", question, "\n\nNo relevant complaints found.", question);
    } else {
      var opening := Preamble + Context(cs);
      AppendAssociative(opening, QuestionLabel, question);
      ContainsSelf(QuestionLabel + question);
      ContainsInside(opening, QuestionLabel + question, Instructions, QuestionLabel + question);
      ContainsInside(opening + QuestionLabel, question, Instructions, question);
      var heading := "RELEVANT CUSTOMER COMPLAINTS";
      assert ContextHeading[..|heading|] == heading;
      ContainsInside(Preamble, ContextHeading, Blocks(cs), heading);
      ContainsInside([], Preamble + ContextHeading + Blocks(cs), QuestionLabel + question + Instructions, heading);
      AppendAssociative(Preamble, ContextHeading, Blocks(cs));
      AppendAssociative(opening, QuestionLabel + question, Instructions);
      assert [] + opening == opening;
    }
  }

  // ---------------------------------------------------------------- answer

  /** The five canned analyses `generate_answer` chooses from. */
  datatype Topic = CardFraud | MoneyTransfer | AccountFee | CreditCard | General

  /** The first keyword rule the (lower-cased) prompt satisfies. */
  function TopicOf(text: string): Topic {
    if Contains(text, "credit card") && Contains(text, "fraud") then CardFraud
    else if Contains(text, "money transfer") || (Contains(text, "transfer") && Contains(text, "delay")) then MoneyTransfer
    else if Contains(text, "bank account fee") || (Contains(text, "fee") && Contains(text, "account")) then AccountFee
    else if Contains(text, "credit card") then CreditCard
    else General
  }

  /** The canned analysis for a topic; only the fraud and transfer analyses
      name the companies. */
  function AnswerFor(topic: Topic, companyList: string): string {
    match topic
    case CardFraud =>
      Between("Based on the retrieved "
       + "complaints, credit card fraud "
       + "issues include:\n\n"
       + "1. **Unauthorized Card Use**: "
       + "Debit cards stored on accounts "
       + "being used without authorization\n"
       + "2. **Multiple Fraud "
       + "Occurrences**: Customers "
       + "experiencing repeated fraud "
       + "incidents on same cards\n"
       + "3. **Issuers Affected**: ",
       companyList,
       "\n\n"
       + "**Affected Products**: Debit "
       + "cards, credit cards\n\n"
       + "**Actionable Insights**:\n"
       + "- Review card storage security "
       + "measures\n"
       + "- Implement stronger fraud "
       + "detection for repeat incidents\n"
       + "- Standardize fraud reporting "
       + "across all partner banks")
    case MoneyTransfer =>
      Between("Analysis of money transfer "
       + "complaints from ",
       companyList,
       ":\n\n"
       + "1. **Transfer Processing "
       + "Issues**: Dollar transfers from "
       + "credit card cash rewards "
       + "experiencing confirmation but no "
       + "completion\n"
       + "2. **System Reliability**: "
       + "Customers unable to log in for "
       + "hours, affecting transfer "
       + "capabilities\n"
       + "3. **Bank Involved**: Citibank "
       + "mentioned in transfer-related "
       + "complaints\n\n"
       + "**Affected Products**: Credit "
       + "card cash rewards transfers, "
       + "online banking\n"
       + "**Primary Issue**: Transfer "
       + "system reliability and "
       + "confirmation mismatches\n\n"
       + "**Recommendations**:\n"
       + "- Audit transfer confirmation vs "
       + "completion processes\n"
       + "- Improve system uptime and login "
       + "reliability\n"
       + "- Enhance communication for "
       + "delayed transfers")
    case AccountFee =>
      "Analysis of bank account fee "
      + "complaints:\n\n"
      + "1. **Business Account Charges**: "
      + "Business checking accounts "
      + "charged excessive fees over "
      + "multiple years\n"
      + "2. **Unauthorized Fee Issuance**: "
      + "Fees issued without proper "
      + "justification or customer "
      + "agreement\n"
      + "3. **Bank Involved**: Bank of "
      + "America specifically mentioned "
      + "for business account fees\n\n"
      + "**Affected Products**: Business "
      + "checking accounts\n"
      + "**Time Period**: Issues spanning "
      + "2+ years in some cases\n\n"
      + "**Action Items**:\n"
      + "- Review business account fee "
      + "structures\n"
      + "- Implement fee justification "
      + "requirements\n"
      + "- Create fee dispute resolution "
      + "process"
    case CreditCard =>
      "Based on the retrieved complaints "
      + "about credit cards:\n\n"
      + "1. **Fraud Prevention**: Multiple "
      + "unauthorized use incidents\n"
      + "2. **Rewards System**: Problems "
      + "with cash reward transfers\n"
      + "3. **Multiple Banks**: Issues "
      + "across different financial "
      + "institutions\n\n"
      + "**Pattern**: Credit card "
      + "complaints often involve security "
      + "(fraud) and value (rewards) "
      + "aspects.\n\n"
      + "**Strategic Focus**: CrediTrust "
      + "should prioritize:\n"
      + "- Enhanced fraud detection "
      + "algorithms\n"
      + "- Transparent rewards program "
      + "terms\n"
      + "- Consistent customer service "
      + "across all card products"
    case General =>
      "Analysis of customer complaints "
      + "reveals:\n\n\n"
      + "1. **Security Issues**: Fraud and "
      + "unauthorized access across "
      + "multiple product types\n"
      + "2. **Fee Transparency**: Unclear "
      + "or unjustified charges on "
      + "accounts\n"
      + "3. **System Reliability**: "
      + "Banking platform accessibility "
      + "problems\n"
      + "4. **Multiple Institutions**: "
      + "Issues not limited to single "
      + "banks\n\n"
      + "**Cross-Product Impact**: These "
      + "patterns affect credit cards, "
      + "bank accounts, and transfer "
      + "services.\n\n"
      + "**Strategic Recommendation**: "
      + "Implement standardized security "
      + "protocols and fee transparency "
      + "measures across all financial "
      + "products."
  }

  /** A company `generate_answer` names: set and not "Unknown". */
  predicate Named(company: string) {
    company != "" && company != Unknown
  }

  /** `complaints[:3]`. */
  function Leading(cs: seq<Complaint>): seq<Complaint> {
    if |cs| <= 3 then cs else cs[..3]
  }

  /** The named companies of the records, in record order. */
  function NamedCompanies(cs: seq<Complaint>): seq<string> {
    if cs == [] then []
    else NamedCompanies(cs[..|cs| - 1]) + (if Named(cs[|cs| - 1].company) then [cs[|cs| - 1].company] else [])
  }

  function CompanyList(cs: seq<Complaint>): string {
    var names := NamedCompanies(Leading(cs));
    if names == [] then NoCompanies else JoinWith(names, ", ")
  }

  function AnswerText(prompt: string, cs: seq<Complaint>): string {
    AnswerFor(TopicOf(Lower(prompt)), CompanyList(cs))
  }

  method GenerateAnswer(prompt: string, cs: seq<Complaint>) returns (answer: string)
    ensures answer == AnswerText(prompt, cs)
  {
    var leading := Leading(cs);
    var companies: seq<string> := [];
    for i := 0 to |leading|
      invariant companies == NamedCompanies(leading[..i])
    {
      assert leading[..i + 1][..i] == leading[..i];
      if Named(leading[i].company) {
        companies := companies + [leading[i].company];
      }
    }
    assert leading[..|leading|] == leading;
    var companyList := if companies == [] then NoCompanies else JoinWith(companies, ", ");
    answer := AnswerFor(TopicOf(Lower(prompt)), companyList);
  }

  /** The named companies of one record: its company when that is set. */
  lemma NamedCompaniesOne(c: Complaint)
    ensures NamedCompanies([c]) == if Named(c.company) then [c.company] else []
  {
    assert [c][..0] == [];
  }

  /** The named companies of two runs of records are those of the first run
      followed by those of the second: with `NamedCompaniesOne`, the list
      keeps the records' order and one entry per record with a set company,
      repeats included. */
  lemma {:induction false} NamedCompaniesAppend(a: seq<Complaint>, b: seq<Complaint>)
    ensures NamedCompanies(a + b) == NamedCompanies(a) + NamedCompanies(b)
    decreases |b|
  {
    if b == [] {
      assert a + b == a;
    } else {
      var init := b[..|b| - 1];
      assert (a + b)[..|a + b| - 1] == a + init;
      assert (a + b)[|a + b| - 1] == b[|b| - 1];
      NamedCompaniesAppend(a, init);
    }
  }

  /** The named companies are exactly the records' companies that are set and
      not "Unknown", no more and no fewer. */
  lemma {:induction false} NamedCompaniesExact(cs: seq<Complaint>)
    ensures |NamedCompanies(cs)| <= |cs|
    ensures forall n :: n in NamedCompanies(cs) ==> Named(n) && exists i :: 0 <= i < |cs| && cs[i].company == n
    ensures forall i :: 0 <= i < |cs| && Named(cs[i].company) ==> cs[i].company in NamedCompanies(cs)
  {
    if cs != [] {
      var init := cs[..|cs| - 1];
      NamedCompaniesExact(init);
      forall n | n in NamedCompanies(cs)
        ensures Named(n) && exists i :: 0 <= i < |cs| && cs[i].company == n
      {
        if n in NamedCompanies(init) {
          var i :| 0 <= i < |init| && init[i].company == n;
          assert cs[i].company == n;
        } else {
          assert cs[|cs| - 1].company == n;
        }
      }
      forall i | 0 <= i < |cs| && Named(cs[i].company)
        ensures cs[i].company in NamedCompanies(cs)
      {
        if i < |cs| - 1 {
          assert init[i] == cs[i];
        }
      }
    }
  }

  /** The company list falls back to "multiple financial institutions"
      exactly when none of the first three records names a company. */
  lemma CompanyListFallback(cs: seq<Complaint>)
    ensures NamedCompanies(Leading(cs)) == []
        <==> forall i :: 0 <= i < |cs| && i < 3 ==> !Named(cs[i].company)
    ensures NamedCompanies(Leading(cs)) == [] ==> CompanyList(cs) == NoCompanies
  {
    var leading := Leading(cs);
    NamedCompaniesExact(leading);
    assert forall i :: 0 <= i < |cs| && i < 3 ==> cs[i] == leading[i];
    if NamedCompanies(leading) != [] {
      assert NamedCompanies(leading)[0] in NamedCompanies(leading);
    }
  }

  /** The fraud and transfer analyses quote the company list. */
  lemma AnswerCitesCompanies(topic: Topic, companyList: string)
    requires topic == CardFraud || topic == MoneyTransfer
    ensures Contains(AnswerFor(topic, companyList), companyList)
  {
  }

  /** The other three analyses do not depend on the company list. */
  lemma AnswerIgnoresCompanies(topic: Topic, companyList: string, other: string)
    requires topic != CardFraud && topic != MoneyTransfer
    ensures AnswerFor(topic, companyList) == AnswerFor(topic, other)
  {
  }

  /** `generate_answer` never returns an empty string, whatever the prompt
      and the records. */
  lemma AnswerNonEmpty(prompt: string, cs: seq<Complaint>)
    ensures |AnswerText(prompt, cs)| > 0
  {
    TopicAnswerNonEmpty(TopicOf(Lower(prompt)), CompanyList(cs));
  }

  /** Every canned analysis is non-empty, whatever the company list. */
  lemma TopicAnswerNonEmpty(topic: Topic, companyList: string)
    ensures |AnswerFor(topic, companyList)| > 0
  {
    match topic
    case CardFraud => NonEmptyCardFraud(companyList);
    case MoneyTransfer => NonEmptyMoneyTransfer(companyList);
    case AccountFee => NonEmptyAccountFee(companyList);
    case CreditCard => NonEmptyCreditCard(companyList);
    case General => NonEmptyGeneral(companyList);
  }

  // One lemma per analysis, so that each proof looks at one template only.

  lemma NonEmptyCardFraud(companyList: string)
    ensures |AnswerFor(CardFraud, companyList)| > 0
  {
  }

  lemma NonEmptyMoneyTransfer(companyList: string)
    ensures |AnswerFor(MoneyTransfer, companyList)| > 0
  {
  }

  lemma NonEmptyAccountFee(companyList: string)
    ensures |AnswerFor(AccountFee, companyList)| > 0
  {
  }

  lemma NonEmptyCreditCard(companyList: string)
    ensures |AnswerFor(CreditCard, companyList)| > 0
  {
  }

  lemma NonEmptyGeneral(companyList: string)
    ensures |AnswerFor(General, companyList)| > 0
  {
  }

  /** A keyword the (lower-cased) question contains is in the lower-cased
      prompt, whatever was retrieved. */
  lemma QuestionKeywordInPrompt(question: string, cs: seq<Complaint>, keyword: string)
    requires Contains(Lower(question), keyword)
    ensures Contains(Lower(PromptText(question, cs)), keyword)
  {
    if cs == [] {
      LowerConcat("Question: " + question, "\n\nNo relevant complaints found.");
      LowerConcat("Question: ", question);
      ContainsInside(Lower("Question: "), Lower(question), Lower("\n\nNo relevant complaints found."), keyword);
    } else {
      var front := Preamble + Context(cs) + QuestionLabel;
      LowerConcat(front + question, Instructions);
      LowerConcat(front, question);
      ContainsInside(Lower(front), Lower(question), Lower(Instructions), keyword);
    }
  }

  /** A question about credit card fraud always gets the fraud analysis, and a
      question mentioning credit cards never gets the general one, whatever
      the retrieved complaints say. */
  lemma QuestionKeywordsDecide(question: string, cs: seq<Complaint>)
    ensures Contains(Lower(question), "credit card") && Contains(Lower(question), "fraud")
        ==> TopicOf(Lower(PromptText(question, cs))) == CardFraud
    ensures Contains(Lower(question), "credit card")
        ==> TopicOf(Lower(PromptText(question, cs))) != General
  {
    if Contains(Lower(question), "credit card") {
      QuestionKeywordInPrompt(question, cs, "credit card");
      if Contains(Lower(question), "fraud") {
        QuestionKeywordInPrompt(question, cs, "fraud");
      }
    }
    TopicPriority(Lower(PromptText(question, cs)));
  }

  /** The fraud rule comes first, and a text that mentions credit cards
      always matches one of the first four rules. */
  lemma TopicPriority(text: string)
    ensures Contains(text, "credit card") && Contains(text, "fraud") ==> TopicOf(text) == CardFraud
    ensures Contains(text, "credit card") ==> TopicOf(text) != General
  {
  }

  // ---------------------------------------------------------------- pipeline

  /** What `answer_question` returns: the answer and the records it used. */
  datatype Answered = Answered(answer: string, sources: seq<Complaint>)

  /** `answer_question(question)` through its 30-second timeout; the retrieval
      inside it has its own 15-second one. */
  function Answer(question: string, index: Index, retrievalOverran: bool, overran: bool): Outcome<Answered> {
    Supervised(overran,
      match Retrieve(question, AnswerK, index, retrievalOverran)
      case Raised(e) => Raised(e)
      case Ok(cs) => Ok(Answered(AnswerText(PromptText(question, cs), cs), cs)),
      AnswerTimedOut)
  }

  method AnswerQuestion(question: string, index: Index, retrievalOverran: bool, overran: bool)
    returns (r: Outcome<Answered>)
    ensures r == Answer(question, index, retrievalOverran, overran)
  {
    if overran {
      return Raised(TimeoutError(AnswerTimedOut));
    }
    var retrieved := RetrieveComplaints(question, AnswerK, index, retrievalOverran);
    if retrieved.Raised? {
      return Raised(retrieved.error);
    }
    var complaints := retrieved.value;
    var prompt := CreatePrompt(question, complaints);
    var answer := GenerateAnswer(prompt, complaints);
    return Ok(Answered(answer, complaints));
  }

  /** `answer_question` does not degrade: it fails exactly when its retrieval
      fails, with the same exception (a retrieval timeout included), and on
      success its sources are exactly the records retrieved with k = 3. */
  lemma AnswerUsesRetrieval(question: string, index: Index, retrievalOverran: bool)
    ensures var a := Answer(question, index, retrievalOverran, false);
      var got := Retrieve(question, AnswerK, index, retrievalOverran);
      && (a.Raised? <==> got.Raised?)
      && (a.Raised? ==> a.error == got.error)
      && (a.Ok? ==> a.value.sources == got.value)
    ensures Answer(question, index, true, false) == Raised(TimeoutError(RetrievalTimedOut))
  {
  }

  /** With an index that keeps to the k it is given, retrieval returns at
      most k records. */
  lemma RetrieveBounded(question: string, k: nat, index: Index, overran: bool)
    requires ReturnsAtMost(index, k)
    ensures Retrieve(question, k, index, overran).Ok? ==> |Retrieve(question, k, index, overran).value| <= k
  {
    if !overran && !IsBlank(question) {
      var reply := index(Strip(question), k);
      assert reply.Hits? ==> |reply.documents| <= k;
      assert WellFormed(reply) ==> |Records(reply)| == |reply.documents|;
    }
  }

  /** Hence an answer cites at most three complaints. */
  lemma AnswerSourcesBounded(question: string, index: Index, retrievalOverran: bool)
    requires ReturnsAtMost(index, AnswerK)
    ensures var a := Answer(question, index, retrievalOverran, false);
      a.Ok? ==> |a.value.sources| <= AnswerK
  {
    AnswerUsesRetrieval(question, index, retrievalOverran);
    RetrieveBounded(question, AnswerK, index, retrievalOverran);
  }

  // ---------------------------------------------------------------- degradation

  /** The single stand-in record used when retrieval times out. */
  function FallbackComplaints(): (r: seq<Complaint>)
    ensures |r| == 1 && r[0].id == 1 && r[0].similarity == 0.5
    ensures r[0].product == "General" && r[0].category == "General" && r[0].company == Unknown
  {
    [Complaint(1, "Customer reported issues with financial services.", "General", "General",
               "Service issue", Unknown, 0.5)]
  }

  /** `safe_retrieve_complaints`: a timeout degrades to the fallback record,
      any other failure to no records, and it never raises. */
  function SafeRetrieve(question: string, k: int, index: Index, overran: bool): (r: seq<Complaint>)
    ensures overran ==> r == FallbackComplaints()
    ensures !overran && IsBlank(question) ==> r == []
    ensures !overran && !IsBlank(question) ==> Retrieve(question, k, index, false) == Ok(r)
  {
    match Retrieve(question, k, index, overran)
    case Ok(cs) => cs
    case Raised(TimeoutError(_)) => FallbackComplaints()
    case Raised(ValueError(_)) => []
  }
}
