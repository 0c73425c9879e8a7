# CrediTrust complaint chatbot — a verified model of its request path

The CrediTrust chatbot answers questions about customer complaints against
financial institutions. A question typed into the chat goes through these steps:

1. A per-client sliding-window **rate limiter** decides whether the request
   goes ahead. The default is 30 requests per 60 seconds.
2. The question is **sanitised and validated**. Control characters, HTML-like
   tags and unusual symbols are dropped. Whitespace is collapsed. The text is
   cut to 1000 characters.
3. A **session** is fetched or created. A session has a 24-hour expiry and an
   append-only history.
4. The **retrieval-and-answer pipeline** runs. It queries a vector index for
   the 3 nearest complaint excerpts and turns the hits into complaint records.
   It builds a prompt, then picks one of five canned analyses by a
   keyword-priority rule over the lower-cased prompt.
5. The handler formats the analysis with its supporting complaints and stores
   the exchange in the session. It streams two chat updates: "Thinking...",
   then the answer.

The chat can be exported as a Markdown report and cleared. The server
settings come from environment variables through two readers with different
rules.

The model has one module per source file:

| module | file | form |
|---|---|---|
| `Outcomes` | `src/middleware/timeout.py` | Python exceptions as values, and the timeout decorator as an `overran` flag |
| `Text` | — | Python's string primitives: `isspace`, `\w`, `lower`, `strip`, `split`/`join`, `in`, `str(int)`, `int(str)`, `:.2f` |
| `Validation` | `src/utils/validation.py` | pure functions and lemmas |
| `RagPipeline` | `src/rag_pipeline.py` | specification functions; the loops are methods proved equal to them |
| `Sessions` | `src/session.py` | classes `Session` and `SessionManager` with in-place updates |
| `RateLimiting` | `src/middleware/rate_limiter.py` | class `RateLimiter`, plus the pure step function `Decide` it is proved against |
| `App` | `app.py` | `Respond` as a method over the limiter and the session store that returns the yielded chat histories |
| `ConfigLoader`, `Config` | `src/config_loader.py`, `src/config.py` | pure lookups over an explicit environment map |

These external inputs become parameters:

- the vector index is a function from (query text, k) to a reply;
- the clock is a `now` argument in seconds;
- the generated session id is a `freshId` argument;
- each `@timeout` boundary is an `overran` flag, which says whether its time budget ran out.

## Model

| member | source | states |
|---|---|---|
| `Validation.DropControl` | src/utils/validation.py:14 | a character survives exactly when it is in the input and has code point 32 or more, or is a newline |
| `Validation.StripTags` | src/utils/validation.py:17 | no `'<'` in the output is followed anywhere later by a `'>'`, and every output character comes from the input |
| `Validation.TagSpanRemoved` | src/utils/validation.py:17 | a span from a `'<'` to the next `'>'` disappears together with its contents when nothing before it opens a tag |
| `Validation.KeepSafe` | src/utils/validation.py:20 | a character survives exactly when it is in the input and is a word character, whitespace, or one of `. , ! ? ; : ' " -` |
| `Validation.SanitizeInput` | src/utils/validation.py:8-22 | empty input gives `""`; every output character comes from the input, is not a control character, is safe, and is neither `'<'` nor `'>'` |
| `Validation.SanitizeIdempotent` | src/utils/validation.py:13-20 | sanitising twice is sanitising once |
| `Validation.SanitizeFixes` | src/utils/validation.py:13-20 | a string made only of characters that all three filters keep comes back unchanged |
| `Validation.CollapseShape` | src/utils/validation.py:33 | `' '.join(s.strip().split())` has no leading or trailing whitespace, only single plain spaces, and is empty exactly when `s` is all whitespace |
| `Validation.CollapseIdempotent` | src/utils/validation.py:33 | collapsing twice is collapsing once |
| `Validation.CollapseChars` | src/utils/validation.py:33 | collapsing adds no character except the joining space |
| `Validation.CollapseNoLonger` | src/utils/validation.py:33 | collapsing never lengthens the text |
| `Validation.SplitJoin` | src/utils/validation.py:33 | `split` inverts `' '.join` on non-empty, whitespace-free words |
| `Validation.ValidateQuestion` | src/utils/validation.py:24-42 | empty input raises "Question cannot be empty"; every failure is a `ValueError`; an accepted question has 1 to 1000 characters |
| `Validation.ValidateAccepts` | src/utils/validation.py:26-36 | a question is accepted exactly when it is non-empty and some non-whitespace character survives sanitising; any other non-empty input raises the "only whitespace or invalid characters" error |
| `Validation.ValidatedShape` | src/utils/validation.py:30-40 | an accepted question holds only sanitised characters or joining spaces, starts with a non-space, uses single plain spaces, and ends in a space only when it was truncated |
| `Validation.ValidatedSafe` | src/utils/validation.py:30-40 | every character of an accepted question is not a control character and is safe |
| `Validation.ValidateIdempotent` | src/utils/validation.py:24-42 | re-validating an accepted question returns it unchanged exactly when it does not end in a space, that is, unless truncation left one |
| `RagPipeline.RetrieveComplaints` | src/rag_pipeline.py:42-82 | equals `Retrieve`: a timeout raises the retrieval `TimeoutError`, a blank question raises `ValueError`, and otherwise the records of the index's reply to the stripped question |
| `RagPipeline.MapReply` | src/rag_pipeline.py:59-82 | the loop builds exactly `Records(reply)`: one record per hit, or none when the query fails or a list runs short |
| `RagPipeline.RetrieveRaisesOnlyWhenBlank` | src/rag_pipeline.py:46-82 | outside a timeout, retrieval raises exactly when the question is all whitespace, and then only with "Question cannot be empty"; a failed query or an unfinishable mapping gives `[]` |
| `RagPipeline.BlankIgnoresIndex` | src/rag_pipeline.py:46-57 | for a blank question the outcome does not depend on the index, so it is refused before the query |
| `RagPipeline.RecordsFollowHits` | src/rag_pipeline.py:59-75 | one record per document, in index order, with ids 1..n; product, issue and company come from their keys and category from `product_category`; a present value is copied verbatim, a missing key becomes "Unknown"; similarity is `1 - distance` |
| `RagPipeline.RecordsKeepRanking` | src/rag_pipeline.py:59-75 | hits sorted by distance become records sorted by decreasing similarity |
| `RagPipeline.RetrieveBounded` | src/rag_pipeline.py:53-75 | an index that returns at most k hits gives at most k records |
| `RagPipeline.Excerpt` | src/rag_pipeline.py:113 | the excerpt is a prefix of the text of at most 300 characters, always followed by `"..."` |
| `RagPipeline.CreatePrompt` | src/rag_pipeline.py:84-132 | the loop builds the context as the fold of one block per record; with no records the prompt is exactly `"Question: " + q + "\n\nNo relevant complaints found."` |
| `RagPipeline.PromptQuotesRecords` | src/rag_pipeline.py:90-130 | a prompt with records contains every record's block |
| `RagPipeline.BlockInPrompt` | src/rag_pipeline.py:92-130 | record i's block follows, in the prompt, the preamble, the context heading and the blocks of records 1..i-1, so it is the slice of the prompt starting at offset o(i) = the length of those parts |
| `RagPipeline.HeaderInPrompt` | src/rag_pipeline.py:92-130 | record i's `[Complaint #id - product - company]` header starts at that same offset o(i) |
| `RagPipeline.BlockOffsetsIncrease` | src/rag_pipeline.py:92-113 | o(i) < o(j) whenever i < j, so the headers appear one per record, in input order |
| `RagPipeline.PromptFramesContext` | src/rag_pipeline.py:115-130 | the context sits in the prompt right after the fixed preamble |
| `RagPipeline.PromptMentions` | src/rag_pipeline.py:87-130 | every prompt contains the question; a prompt with records contains "RELEVANT CUSTOMER COMPLAINTS" and `"USER QUESTION: " + q` |
| `RagPipeline.GenerateAnswer` | src/rag_pipeline.py:134-217 | the loop collects exactly the named companies of the first three records, and the answer is the analysis for the first matching keyword rule |
| `RagPipeline.NamedCompaniesExact` | src/rag_pipeline.py:138-141 | a collected company is one of the records' companies, non-empty and not "Unknown"; every such company is collected; the list is no longer than the records |
| `RagPipeline.NamedCompaniesOne` | src/rag_pipeline.py:138-141 | one record contributes its company when that is set, and nothing otherwise |
| `RagPipeline.NamedCompaniesAppend` | src/rag_pipeline.py:138-141 | the companies of `a + b` are those of `a` followed by those of `b`, so the list keeps the records' order and has one entry per named record, repeats included |
| `RagPipeline.CompanyListFallback` | src/rag_pipeline.py:138-143 | the list falls back to "multiple financial institutions" exactly when none of the first three records names a company |
| `RagPipeline.QuestionKeywordInPrompt` | src/rag_pipeline.py:115-146 | a keyword in the lower-cased question is in the lower-cased prompt, whatever was retrieved |
| `RagPipeline.QuestionKeywordsDecide` | src/rag_pipeline.py:146-204 | a question about credit card fraud gets the fraud analysis, and a question mentioning credit cards never gets the general one |
| `RagPipeline.AnswerCitesCompanies` | src/rag_pipeline.py:148-175 | the fraud and money-transfer analyses quote the company list |
| `RagPipeline.AnswerNonEmpty` | src/rag_pipeline.py:146-217 | the answer is never empty |
| `RagPipeline.AnswerQuestion` | src/rag_pipeline.py:219-249 | equals `Answer`: a timeout raises the answer `TimeoutError`; otherwise retrieval with k = 3, then the prompt, then the analysis, returned with the records |
| `RagPipeline.AnswerUsesRetrieval` | src/rag_pipeline.py:219-249 | answering fails exactly when its retrieval fails, with the same exception, a retrieval timeout included; on success the sources are the retrieved records unchanged |
| `RagPipeline.AnswerSourcesBounded` | src/rag_pipeline.py:227-249 | with an index that keeps to k, an answer cites at most three complaints |
| `RagPipeline.FallbackComplaints` | src/rag_pipeline.py:262-276 | exactly one record: id 1, product and category "General", company "Unknown", similarity 0.5 |
| `RagPipeline.SafeRetrieve` | src/rag_pipeline.py:251-260 | a timeout gives the fallback record, a blank question gives `[]`, anything else gives what retrieval returns; it never raises |
| `Sessions.ChosenId` | src/session.py:14 | a given non-empty id is kept; an absent or empty id takes the generated one |
| `Sessions.Session.constructor` | src/session.py:13-17 | empty history, created now, expiring `ttl_hours` hours later, and not expired at creation |
| `Sessions.Session.AddMessage` | src/session.py:19-24 | the history gains exactly one (question, answer, time) entry at its end |
| `Sessions.Session.IsExpired` | src/session.py:26-27 | expired exactly when the time is strictly after `expires_at`, so a session is still live at that instant |
| `Sessions.ExpiredStaysExpired` | src/session.py:26-27 | an expired session stays expired at every later time |
| `Sessions.SessionManager.constructor` | src/session.py:32-33 | an empty store |
| `Sessions.SessionManager.GetOrCreate` | src/session.py:35-43 | a known, live id returns that same session and leaves the store alone; otherwise a new session (under the given id, or the generated one) replaces the entry; no key is lost and every key maps to a session with that id |
| `RateLimiting.Prune` | src/middleware/rate_limiter.py:23-26 | exactly the times strictly after the window start survive, so a time exactly `window_seconds` old is dropped |
| `RateLimiting.PruneKeepsRecent` | src/middleware/rate_limiter.py:23-26 | times all inside the window are kept as they are, in order |
| `RateLimiting.DecideSpec` | src/middleware/rate_limiter.py:18-34 | allowed exactly when fewer than `max_requests` times remain after pruning; `now` is appended only when allowed; the kept list stays within `max_requests` and inside the window |
| `RateLimiting.BurstLimit` | src/middleware/rate_limiter.py:29-34 | a new client's first `max_requests` requests within one window are allowed and the next is refused (30 then 1 with the defaults) |
| `RateLimiting.PruneDropsOld` | src/middleware/rate_limiter.py:23-26 | times all at or before the window start are all dropped |
| `RateLimiting.WindowPassedAllows` | src/middleware/rate_limiter.py:18-34 | once a whole window has passed since a client's last request (and `max_requests > 0`), the next request is allowed and the client's list becomes just that request's time |
| `RateLimiting.BurstFrom` | src/middleware/rate_limiter.py:29-34 | the same from any point of the burst: the remaining requests up to the limit are allowed, then one refusal |
| `RateLimiting.RateLimiter.constructor` | src/middleware/rate_limiter.py:13-16 | the limits as given (30 and 60 by default) and no client recorded |
| `RateLimiting.RateLimiter.IsAllowed` | src/middleware/rate_limiter.py:18-34 | the answer and the client's new list are `Decide`'s; no other client's list changes; no client ever holds more than `max_requests` times |
| `App.CompanyNote` | app.py:69-70 | a company is shown in parentheses exactly when it is not "Unknown" |
| `App.FormatResponse` | app.py:63-72 | the loop builds the analysis followed by one numbered entry per source |
| `App.ResponseLists` | app.py:63-72 | the response starts with `"##  Analysis\n" + answer + "\n\n"`, is just that without sources, and otherwise contains every source's entry |
| `App.SourceEntryShows` | app.py:68-72 | an entry previews the first 100 characters of the text and names a known company |
| `App.ClientId` | app.py:40 | the rate-limit key is the session id when one is given and non-empty, and "anonymous" when it is absent or empty; it is never empty |
| `App.Conclude` | app.py:60-79 | the final message is the formatted response or the error text; the session gains the exchange exactly when the pipeline answered |
| `App.Respond` | app.py:36-88 | the limiter is consulted first; a refused request yields nothing and leaves the store and every session's history untouched; otherwise the updates are `Yielded` and the store is `Handled`; only the session filed under the chosen id can change its history, and only for an accepted question |
| `App.Serve` | app.py:45-88 | validation, then the session, "Thinking...", the pipeline and the final update; a rejected question leaves the store and every history alone; an accepted one changes only the entry under its chosen id, to the live session it held or to a fresh one created now with a 24-hour lifetime, whose history gains the exchange when there was an answer; every other session's history is unchanged |
| `App.RespondUpdates` | app.py:36-88 | no updates when refused; one `"⚠️ " + message` update for a `ValueError`; exactly two for an accepted question: the history plus the question plus "Thinking...", then the same history and question plus the final message for the pipeline's outcome |
| `App.AcceptedQuestionIsAnswered` | app.py:47-88 | a validated question is never refused by retrieval as empty; without a timeout it always gets an analysis, and a timeout shows only the generic apology |
| `App.ExportChat` | app.py:94-106 | the loop builds exactly `ExportText` |
| `App.ExportLists` | app.py:94-106 | an empty chat exports as "No chat history to export"; each user message appears as `## Q<i>` numbered by its position in the whole chat; each assistant message without "Thinking" appears; a non-empty export starts with the report title |
| `App.ExportAppends` | app.py:94-106 | one more message adds exactly its own entry, numbered by its position, after the export so far (after the title for the first message) |
| `App.ExportSkips` | app.py:97-104 | a "Thinking..." placeholder, or a message that is neither the user's nor the assistant's, leaves a non-empty chat's export unchanged |
| `App.ClearChat` | app.py:90-92 | the empty history, which exports as the notice |
| `ConfigLoader.Get` | src/config_loader.py:24-26 | the variable's value when set, exactly the default otherwise |
| `ConfigLoader.GetInt` | src/config_loader.py:28-37 | the default when unset or unparsable, the parsed integer otherwise |
| `ConfigLoader.GetIntRoundTrip` | src/config_loader.py:28-37 | an integer written as `str(n)` reads back as n |
| `ConfigLoader.GetBool` | src/config_loader.py:39-42 | a set variable is true exactly when it lower-cases to "true", "1", "yes" or "on"; an unset one gives the default |
| `Text.ParseIntRoundTrip` | src/config_loader.py:34 | `int(str(i)) == i` for every integer |
| `Config.ApiFromEnv` | src/config.py:27-34 | Ok exactly when the port text (API_PORT, or "7860") parses, and otherwise the `int()` `ValueError` for that text; on Ok the host is API_HOST or "0.0.0.0" verbatim, the port is the parsed one, and debug is on exactly when DEBUG lower-cases to "true" |
| `Config.FromEnvDefaults` | src/config.py:27-34 | with none of its variables set, `from_env` gives `APIConfig()`: host "0.0.0.0", port 7860, debug off |
| `Config.FromEnvReads` | src/config.py:27-34 | the host is taken verbatim; the result is Ok exactly when the port parses, and a bad API_PORT raises `ValueError` with no fallback; debug is on exactly when DEBUG lower-cases to "true", so "1", "yes" and "on" leave it off |
| `Config.DebugStricterThanGetBool` | src/config.py:33 | "1", "yes" and "on" are true to `get_bool` but leave `from_env`'s debug off |

## Left out

- The vector index (chromadb and the embedding model) is a function parameter. That it returns at most k hits when asked for k is the predicate `ReturnsAtMost`, taken as a hypothesis, because the code never truncates.
- The metadata mapping reads the first query's lists only. The `if results['documents'] and results['documents'][0]` guard is modelled by the reply's document list being empty or not.
- The `@timeout` decorator's worker thread and `join` are out of the model. Each boundary's outcome is an `overran` input, and an abandoned body's effects are not modelled.
- The `isinstance(comp, dict)` branch of `create_prompt`, which only tests use, is not modelled: records are always `Complaint` values.
- Similarity is a `real`. `:.2f` is applied to the exact value with round-half-even, not to the binary float.
- `str.lower`, `\w` and `\s` are given for ASCII and Latin-1 only. `\s` and `isspace` use Python's full whitespace set. Other Unicode letters, digits and case mappings are not modelled.
- `int()` accepts ASCII digits only, not other Unicode decimal digits. Its error message is given without Python's `repr` quoting rules.
- Session timestamps are `real` seconds, not `isoformat()` strings. `datetime.now()` and `uuid.uuid4()` are inputs.
- `App.Respond` takes the pipeline's `answer_question` as a function from the question to its outcome. The pipeline itself is modelled by `RagPipeline.Answer`, and `App.AcceptedQuestionIsAnswered` connects the two.
- `App.Respond` returns the list of histories the generator yields. Because the rate-limit message is the generator's return value, it is never shown, and the model yields nothing for a refused request.
- Only `ValueError` and the custom `TimeoutError` are modelled as exceptions. Any other exception from the pipeline is left out, and it would show the same generic message as the timeout.
- Logging, `print`, the Gradio interface and the module-level component set-up in `app.py` are out of the model. The latter is replaced by the constructors `RateLimiter(30, 60)` and `SessionManager()`.
- `ConfigLoader._load_env_file` and `get_path` are left out: they load a dotenv file and create directories. The environment is an explicit map.
- `Config.ModelConfig`, `ChunkingConfig` and `RetrievalConfig` are modelled as their defaults only; no code reads them from the environment.
