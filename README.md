# Shrimp-farm profit dashboard — a Dafny model of its analysis core

The dashboard (`Melayu/app.py`) takes an uploaded sheet of shrimp-farm
("tambak") records and does five things:

- It checks that the sheet has the columns `Tambak`, `Produksi_kg`, `Biaya` and `Pendapatan`.
- It builds a per-farm summary with a `GROUP BY Tambak` / `SUM` / `ORDER BY Laba_Bersih DESC` query.
- It writes a rule-based insight naming the most and the least profitable farm.
- It asks a hosted language model for a commentary.
- It runs a chat whose transcript lives in the user's session.

This project models that logic and proves what it promises.

| file | module | what it models |
|---|---|---|
| `schema.dfy` | `Schema` | the column check (app.py:80, 155-156) |
| `aggregation.dfy` | `Aggregation` | the query: what it means (`IsSummaryOf`), one evaluation of it (`Aggregate`), and the proofs that they agree |
| `commentary.dfy` | `Commentary` | the top/bottom insight (app.py:105-112) |
| `rupiah.dfy` | `Options`, `Rupiah` | the `{x:,.0f}` rendering of money figures, and a reader that parses them back |
| `completion.dfy` | `Completion`, `AiCommentary` | the completion service as requests and outcomes; `generate_ai_commentary` (app.py:35-59) |
| `chat.dfy` | `Chat` | the transcript functions and the session-held `ChatSession` class (app.py:127-153) |
| `dashboard.dfy` | `Dashboard` | one top-to-bottom run of the script, from upload to chat |

Design choices:

- **The query.** `IsSummaryOf(rows, s)` states what the query means:
  - `s` holds one row per distinct farm of the input, and no other farm.
  - Each row holds the sums over exactly that farm's rows.
  - Each row has `Laba_Bersih = Total_Pendapatan - Total_Biaya`.
  - The rows are sorted by net profit, non-increasing.
  - The order of rows with equal profit is left open, as SQL leaves it.
- **One evaluation.** `Aggregate` lists the farms in order of first appearance.
  It then sorts them with a stable insertion sort.
  `AggregateIsSummary` proves that this meets `IsSummaryOf`.
  `SummaryUniqueUpToOrder` proves that any two correct answers are permutations of each other.
- **The completion service.** It is an input. An `Outcome` is either `Success(text)` or `Failure(error)`.
  Each operation returns the list of requests it sent. This list is the call counter: with no client it is empty.
- **The session transcript.** It is the class `ChatSession`. `Seed` and `Ask` update it in place.
  They are specified by the pure functions `SeedTranscript` and `AfterQuestion`, about which the lemmas are proved.
- **Re-runs.** The script re-runs on every interaction, and `Dashboard.Rerun` is one such run.
  Each run with a valid upload asks for the AI commentary again.
  A question submitted in that run adds a second request.

Behaviour the model takes from the code as written:

- **Empty data.** With all four columns but no rows, the summary is empty.
  `summary.iloc[0]` then raises (app.py:105), so nothing after the chart runs.
  The model yields `IndexFailure`, with no insight, no AI request and no chat. This happens exactly when the table has no rows.
- **What seeds the transcript.** It is seeded with whatever `ai_text` holds (app.py:119, 127-131).
  This includes the inactive notice or an error line, not only a successful commentary.
- **Re-upload.** The transcript is created only when the session has none (app.py:127).
  So it survives a new upload, and it keeps the first upload's commentary.
- **Tie order.** The query orders only by `Laba_Bersih` (app.py:90), so the order of equal-profit rows is open.
  The specification `IsSummaryOf` leaves it open; `Aggregate` fixes a stable one.

Running the aggregation twice on the same input gives the same result.
Nothing needs proving for this: Dafny functions are deterministic.

## Model

| member | source | states |
|---|---|---|
| `Schema.HasRequiredColumns` | Melayu/app.py:80 | the check passes exactly when each of Tambak, Produksi_kg, Biaya and Pendapatan is a column |
| `Schema.ExtraColumnsAllowed` | Melayu/app.py:80 | adding columns never makes a passing sheet fail |
| `Schema.MissingColumnRejected` | Melayu/app.py:80 | removing any one of the four required columns makes the check fail |
| `Aggregation.DistinctFarms` | Melayu/app.py:89 | the GROUP BY keys: no key twice, and a key exactly when it is a Tambak value of the input |
| `Aggregation.SummariesOf` | Melayu/app.py:82-89 | one result row per key, holding that farm's SUMs and Laba_Bersih = revenue - cost |
| `Aggregation.InsertByProfit` | Melayu/app.py:90 | inserting a row gives a permutation of the old rows plus the new one |
| `Aggregation.SortByProfit` | Melayu/app.py:90 | the sort's result is a permutation of its input |
| `Aggregation.InsertKeepsSorted` | Melayu/app.py:90 | inserting into a profit-sorted summary keeps it sorted |
| `Aggregation.SortIsSorted` | Melayu/app.py:90 | the sort's result is ordered by Laba_Bersih, non-increasing |
| `Aggregation.SortKeepsDistinctFarms` | Melayu/app.py:89-90 | sorting never makes a farm appear twice |
| `Aggregation.Aggregate` | Melayu/app.py:81-92 | the query's evaluation. Its contract is proved in separate lemmas: `AggregateIsSummary` shows it meets `IsSummaryOf`, and `AggregateConservesTotals` shows that every column total is kept |
| `Aggregation.AggregateIsSummary` | Melayu/app.py:81-92 | the summary is sorted non-increasing by net profit, has one row per farm of the input and no other, each row holds exactly that farm's sums, and net profit = revenue - cost |
| `Aggregation.OneRowPerFarm` | Melayu/app.py:82-89 | a correct summary has exactly as many rows as the input has distinct Tambak values |
| `Aggregation.SummaryEmptyIffNoRows` | Melayu/app.py:81-92 | a correct summary is empty exactly when the input has no rows |
| `Aggregation.SummaryUniqueUpToOrder` | Melayu/app.py:81-92 | any two correct summaries of the same input are permutations of each other, so only the order of equal-profit rows is open |
| `Aggregation.NetProfitIsSumOfRowProfits` | Melayu/app.py:87 | SUM(Pendapatan) - SUM(Biaya) of a farm equals the sum of its rows' revenue minus cost |
| `Aggregation.AggregateConservesTotals` | Melayu/app.py:84-87 | each summary column adds up to the same column of the input, so no row is lost or counted twice |
| `Commentary.RuleBased` | Melayu/app.py:105-111 | best is the first row and worst the last row; the difference is best minus worst. On a sorted summary, the difference is at least 0 and every profit lies between the two. With one farm, both name it and the difference is 0 |
| `Commentary.InsightOfTable` | Melayu/app.py:105-111 | against the input: the best farm is a farm of the input whose profit no farm exceeds, and the worst one whose profit no farm falls below; with one farm, both are the same |
| `Commentary.TwoFarmExample` | Melayu/app.py:81-111 | farms A (200 - 50) and B (90 - 60) give the summary [A 150, B 30] and an insight of 150, 30 and a difference of 120 |
| `Rupiah.FormatAmount` | Melayu/app.py:109-111 | the `{x:,.0f}` rendering of an integer amount. Its contract is proved in separate lemmas: `ParseFormatRoundTrip` shows it reads back as the amount, and `GroupThousandsLayout` and `FormatAmountShape` show where the sign, digits and commas stand |
| `Rupiah.ParseFormatRoundTrip` | Melayu/app.py:109-111 | every amount written as `{x:,.0f}` reads back as the same amount |
| `Rupiah.GroupThousandsLayout` | Melayu/app.py:109-111 | with the commas removed, the figure is exactly the decimal digits of the amount. It starts with a digit, and a comma stands exactly at every fourth place from the right end. So the first group has one to three digits and every later group three |
| `Rupiah.GroupedDigits` | Melayu/app.py:109-111 | removing the commas from a grouped figure gives exactly the decimal digits of the amount |
| `Rupiah.GroupedCommas` | Melayu/app.py:109-111 | a character of a grouped figure is a comma exactly when its distance from the right end is a multiple of four |
| `Rupiah.FormatAmountShape` | Melayu/app.py:109-111 | a written amount is non-empty and starts with '-' exactly when the amount is negative. Its first character is a digit, or the character right after the '-' is, so it never begins with a comma. The rest holds only digits and commas |
| `AiCommentary.GenerateAiCommentary` | Melayu/app.py:35-59 | with no client: the fixed "tidak aktif" notice, and no request is sent. With a client: exactly one single-turn user request with the fixed model and temperature. On success the result is the service's text; on failure it is "❌ Error AI Commentary: " followed by the error |
| `AiCommentary.InactiveIgnoresInput` | Melayu/app.py:37-38 | without a client the result does not depend on the summary or on the service, and nothing is sent |
| `Chat.SeedTranscript` | Melayu/app.py:127-131 | the seeded transcript is the system priming turn followed by the AI commentary as an assistant turn |
| `Chat.AfterQuestion` | Melayu/app.py:136-153 | earlier turns are unchanged, one user turn is appended, and then one assistant turn exactly when a client exists and the call succeeds. The transcript's shape is preserved |
| `Chat.ChatRequests` | Melayu/app.py:140-146 | a question sends no request without a client; otherwise it sends one request carrying the whole transcript with the question appended, with the fixed model and temperature |
| `Chat.ChatNotice` | Melayu/app.py:147-153 | the shown reply is the answer on success, "❌ Error chat: " followed by the error on failure, and the inactive warning without a client |
| `Chat.ReplayAppendsOnly` | Melayu/app.py:136-153 | over any number of questions, the transcript keeps its prefix and its shape. It gains exactly one user turn per question and one assistant turn per answered question, and never a system turn |
| `Chat.FailedQuestionKeepsOnlyUserTurn` | Melayu/app.py:137-151 | after seeding with T, a question X whose call fails leaves exactly [system, assistant(T), user(X)] |
| `Chat.ChatSession.constructor` | Melayu/app.py:127 | a new session has no transcript |
| `Chat.ChatSession.Seed` | Melayu/app.py:127-131 | the transcript is created from the commentary only if it does not exist yet; an existing one is left as it is |
| `Chat.ChatSession.Ask` | Melayu/app.py:136-153 | the session's transcript becomes `AfterQuestion` of the old one; it returns the notice and the requests of that question |
| `Dashboard.RenderPage` | Melayu/app.py:80-120 | a missing column gives only the warning. With all columns but no rows, the run stops at `iloc[0]`. Otherwise the result is a correct summary, its insight and the AI commentary. At most one request is sent, and only when the analysis runs with a client |
| `Dashboard.Rerun` | Melayu/app.py:66-153 | no upload: nothing happens. Warning or index failure: the session is unchanged and nothing is sent. Analysis: the transcript is seeded if absent, and a non-empty question is handled by `Ask`. The requests are the commentary's followed by the chat's |

## Left out

- Page setup, widgets, and all `st.*` rendering (app.py:11-18, 64, 72-73, 98, 113, 120, 133-134, 138, 149). This is display only. The model returns what would be shown.
- Parsing the uploaded CSV or Excel file (app.py:67-70). This is library I/O. The input is an already-parsed `Table` of column names and rows.
- The Plotly bar chart (app.py:95-98). It is a visualisation call.
- Loading `GROQ_API_KEY` and constructing the client (app.py:23-30). This is configuration I/O. "A client exists" is a boolean: the key is set and non-empty.
- The network calls themselves (app.py:52-56, 142-146). Each call's result is an `Outcome` input, and what was sent is returned as a `Request`.
- The prompt text and `summary_df.to_string` (app.py:40-49). This is pandas-internal serialisation. The prompt is a parameter of `GenerateAiCommentary`.
- Floating-point and NULL semantics of the pandas/DuckDB sums. Amounts are unbounded integers, so there is no rounding, overflow or missing value.
- The Markdown wording and emoji of the rule-based block (app.py:107-112). The model yields the five values the block interpolates (`Insight`), and `Rupiah` shows how each money figure is written.
- `Rupiah.FormatAmount`: writes every integer exactly. Python's `f` presentation converts an int to a double before formatting, so amounts beyond 2^53 in magnitude are rounded in the dashboard; this model does not round them, because amounts here are unbounded integers.
- Exception messages are strings passed in with `Failure`. A service response whose content is missing is not modelled.
- Concurrent submissions within one session. The script runs one interaction at a time.
