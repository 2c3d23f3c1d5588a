# Partner analysis pipeline: a Dafny model

This project models the analysis core of a Web3 partnership finder. A founder
submits a project (name, description, stage, funding stage, categories). The
server validates the request and stores the project. It then obtains a summary
and a list of scored partner candidates, either from a generative backend or
from a rule-based demo generator. It stores the candidates as recommendations
and answers with the stored records. The home page picks the endpoint,
switches to demo mode when the backend quota is exhausted, and rewrites key
errors.

Modules, one file each:

- `Js` (`js.dfy`): the fragment of JavaScript the code relies on.
  - parsed JSON values, with an absent value as `None`;
  - truthiness (what `x || d` tests);
  - `includes` as `Contains`;
  - template-string pieces;
  - the decimal rendering of a count.
- `Schema` (`schema.dfy`): the request validator `analyzeProjectSchema`, the record shapes, and the `{ ...p, ...d }` overlay used by `updateProject`.
- `Demo` (`demo.dfy`): `generateDemoAnalysis`.
  - The method pushes catalog entries by category and keeps the first five.
  - Its result is specified by the pure `DemoPartners`; the properties of that function are lemmas.
- `Analyzer` (`analyzer.dfy`): the part of `analyzeProjectForPartners` that runs after the backend call.
  - the shape check;
  - per-partner defaulting and clamping;
  - the rewriting of every error thrown inside its `try`.
  - The backend's outcome is a parameter: `Reply` is the parsed value, or the message of the error the call or `JSON.parse` threw.
- `Storage` (`storage.dfy`): the class `MemStorage`.
  - It holds two maps and two id counters.
  - The insertion order of the recommendation map is kept as the sequence of its keys, because a JavaScript `Map` iterates in that order.
- `Routes` (`routes.dfy`): the three handlers as methods over one store, each ending in a `Response` value.
  - The predicate `Linked` says that every stored recommendation names a stored project.
  - Both analysis routes keep it. This is why, after a successful analysis, `GET /api/projects/:id` returns exactly the records just created.
- `Client` (`client.dfy`): the home page's mutation as the class `Home`.
  - It holds `isDemoMode` and `analysisResult`.
  - What `apiRequest` and `response.json()` produce is a `Fetch` parameter.

Three points where the code does less than its comments or the page's texts suggest; the model follows the code:

- Partner count: `server/demo.ts` comments "Ensure we have exactly 5 partners" before the cut.
  - The cut only truncates to five, so the demo generator returns between two and five (`Demo.DemoLength`).
  - The normaliser keeps however many entries the backend sent (`Analyzer.AnalyzeReply`).
- Malformed backend reply: `/api/analyze` answers 500 with the prefixed message (`Routes.MalformedReplyIs500`). Only the page falls back to the demo endpoint, and only on a message containing "402" or "quota".
- Key errors: the server never falls back to the demo generator by itself; `/api/analyze` only classifies the error as 402, 401 or 500.

## Model

| member | source | states |
|---|---|---|
| Js.DecimalRoundTrip | server/demo.ts:100 | the decimal digits a template string renders for a count read back as that count |
| Schema.ValidRequest | shared/schema.ts:52-56 | the five length constraints; a request meeting them has a non-empty name, stage, funding stage and category list (`Schema.AcceptedIffConstraints` ties it to the validator) |
| Schema.SafeParse | shared/schema.ts:51-57 | an accepted body meets all five length constraints, and the parsed request carries exactly the body's string and string-array fields |
| Schema.AcceptedIffConstraints | shared/schema.ts:51-57 | a well-typed body is accepted iff name ≥ 1, description ≥ 50, stage ≥ 1, funding stage ≥ 1 and categories ≥ 1 element; it then parses back to the same request, whatever extra keys it has |
| Schema.CategoriesUnconstrained | shared/schema.ts:56 | empty, duplicate and unknown category strings all pass |
| Schema.MissingFieldRefused | shared/schema.ts:51-57 | a body lacking any of the five fields, or one that is not an object, is refused |
| Schema.AsString | shared/schema.ts:52 | a string field is read iff the property is a JSON string, and it is that string |
| Schema.AsStringArray | shared/schema.ts:56 | an array property is read iff every element is a string, and the strings read written back as an array give the property itself |
| Schema.Strings | shared/schema.ts:56 | a JSON array is read as strings iff every element is a string, element by element |
| Schema.Overlay | server/storage.ts:53-56 | field by field, the id included: a field the patch gives replaces the stored one, and a field it omits is kept |
| Schema.OverlayIdempotent | server/storage.ts:53-56 | applying the same patch twice equals applying it once |
| Demo.GenerateDemoAnalysis | server/demo.ts:3-106 | the pushed list equals `DemoPartners`; it has 2 to 5 entries; the summary's average is the rounded mean of the match scores and lies between their minimum and maximum; the summary is the template filled with name, count, joined categories, stage, funding stage and average |
| Demo.FlagsOf | server/demo.ts:5-8 | the four category tests; some flag is set iff the list holds one of the four literal categories, so any other category changes nothing |
| Demo.AppendedIsAdmitted | server/demo.ts:12-95 | the four conditional push blocks build the catalog filtered by the category flags, in catalog order |
| Demo.AdmittedLength | server/demo.ts:12-95 | the filtered catalog has 2 + 2·[DeFi] + [NFT/Gaming or Social/Creator] + [DAO/Governance] entries |
| Demo.DemoLength | server/demo.ts:5-98 | the result has min(5, that count) entries, so between 2 and 5, and is never padded |
| Demo.DemoPartners | server/demo.ts:10-98 | the pushes and the `slice(0, 5)` as one function: 2 to 5 entries, a prefix of the catalog filtered by the flags, so catalog order is kept (the pushes themselves are `Demo.AppendedIsAdmitted`) |
| Demo.AdmittedFromCatalog | server/demo.ts:12-95 | every selected entry is a catalog entry |
| Demo.CatalogScoresInRange | server/demo.ts:18-92 | every match, mission, technical and strategic score of every returned entry lies in [1, 100] |
| Demo.UniversalPartners | server/demo.ts:71-98 | Polygon is always returned; Gitcoin is dropped exactly when DeFi, (NFT/Gaming or Social/Creator) and DAO/Governance are all present |
| Demo.OnlyKnownCategoriesMatter | server/demo.ts:5-8 | two category lists that agree on the four literal categories give the same partners, whatever else they hold and in any order |
| Demo.DeFiExample | server/demo.ts:12-100 | ["DeFi"] gives Aave, Chainlink, Polygon, Gitcoin with average 84 |
| Demo.NoKnownCategoryExample | server/demo.ts:70-100 | categories outside the four give Polygon, Gitcoin with average 82 |
| Demo.Summary | server/demo.ts:100 | the summary template filled in order; it opens with the fixed opening, the project name, the fixed link text and the decimal partner count |
| Demo.SumMatch | server/demo.ts:100 | the `reduce` sum of match scores is non-negative when every score is |
| Demo.RoundedMean | server/demo.ts:100 | `Math.round(sum / n)`: the result r satisfies r ≤ sum/n + 1/2 < r + 1, written without fractions |
| Demo.SumMatchSnoc | server/demo.ts:100 | the `reduce` sum over a list with one more entry adds that entry's match score |
| Demo.SumBetween | server/demo.ts:100 | the sum of n match scores lies between n·min and n·max |
| Demo.MeanWithinScores | server/demo.ts:100 | `Math.round(sum / n)` of a non-empty list lies between its minimum and maximum match score |
| Demo.DemoAverageWithinScores | server/demo.ts:98-100 | the average in the demo summary lies between the minimum and maximum match score of the returned partners |
| Demo.MinMatchIsOneOf | server/demo.ts:100 | the minimum match score is attained by some entry |
| Analyzer.Clamp | server/openai.ts:128 | `Math.max(1, Math.min(100, n))` lies in [1, 100], keeps values inside and maps values above to 100 and below to 1 |
| Analyzer.NormalizeScore | server/openai.ts:128-131 | a score ends in [1, 100]; a falsy one (absent, null, 0) becomes 50; a nonzero number n becomes clamp(n) |
| Analyzer.NormalizePartner | server/openai.ts:123-134 | the object literal for one entry: the result is well formed; each of the six text fields is its default when falsy (name "Unknown Partner", type "Unknown", the other four "") and the given string when it is non-empty; each of the four scores is 50 when falsy and clamp(n) for a nonzero number n |
| Analyzer.NormalizeText | server/openai.ts:124-133 | a falsy text field becomes its default; a non-empty string passes through unchanged |
| Analyzer.NormalizePartners | server/openai.ts:123-134 | partners map one to one: same length and order as the backend array, with no check on how many there are |
| Analyzer.NormalizedIsWellFormed | server/openai.ts:123-134 | every normalised partner has a non-empty name and type and four scores in [1, 100] |
| Analyzer.NormalizeFixesWellFormed | server/openai.ts:123-134 | a well-formed partner, written out with its ten keys, normalises to itself |
| Analyzer.NormalizeIdempotent | server/openai.ts:123-134 | normalising an already normalised partner returns it unchanged |
| Analyzer.ScoreExamples | server/openai.ts:128-131 | 250 becomes 100, -5 becomes 1, and 0, null and absent become 50 (not 1) |
| Analyzer.AnalyzeReply | server/openai.ts:115-146 | success iff the reply parsed to a value with a truthy `summary`, an array `partners` and no null entry; on success the partners are normalised one to one and every other top-level field is kept; a shape failure ends as "Failed to analyze project: Invalid response format from OpenAI"; a thrown error ends rewritten |
| Analyzer.Rewrite | server/openai.ts:141-145 | a message mentioning 429 becomes the fixed quota message; any other message comes out as "Failed to analyze project: " followed by the message itself |
| Analyzer.WellShaped | server/openai.ts:118 | a reply that passes the shape check is an object with a truthy `summary` and an array `partners` |
| Analyzer.QuotaMessageMentionsQuota | server/openai.ts:141-142 | the fixed quota message contains "quota" |
| Analyzer.RewriteKeepsMarkers | server/openai.ts:141-145 | a message without "429" is prefixed, and the prefix adds no "429", "quota" or "401" and hides none |
| Analyzer.Unmarked | server/openai.ts:141-145 | a message with no '4' and no 'q' contains none of "429", "quota" and "401" |
| Analyzer.OwnMessagesPlain | server/openai.ts:119-145 | the prefix and the errors raised inside the normaliser have no '4' and no 'q' |
| Analyzer.PlainErrorUnmarked | server/openai.ts:118-145 | such an error reaches the route prefixed and carries none of the markers |
| Analyzer.EmptySummaryRejected | server/openai.ts:118-120 | an empty-string summary fails the shape check even when `partners` is an array |
| Storage.NewProject | server/storage.ts:31-41 | the stored project carries the row, its id, and null when `analysisResults` is falsy |
| Storage.NullIfFalsy | server/storage.ts:69-70 | an absent or empty `community`/`tvl` is stored as null; any other value is kept |
| Storage.NewRecommendation | server/storage.ts:64-73 | a stored recommendation carries its id, the row's project id, text and four scores, and nulls for falsy `community`/`tvl` |
| Storage.RowsOf | server/storage.ts:80-82 | the stored records in the map's insertion order |
| Storage.Created | server/storage.ts:61-77 | record i is row i stored under id first + i: one record per row, in row order, with consecutive ids from the counter |
| Storage.OfProject | server/storage.ts:80-84 | the filter never grows the list, and every record it keeps names the project |
| Storage.OfProjectMembers | server/storage.ts:80-84 | the filter keeps exactly the records whose `projectId` matches |
| Storage.OfProjectSnoc | server/storage.ts:80-84 | filtering a list with one more record at its end appends that record iff it matches |
| Storage.OfProjectAppend | server/storage.ts:80-84 | filtering distributes over concatenation, so insertion order is kept |
| Storage.OfProjectUniform | server/storage.ts:80-84 | a list all of one project filters to itself; a list with none of it filters to nothing |
| Storage.AppendRecommendation | server/storage.ts:64-74 | storing a record under the counter's id keeps ids unique, ascending and below the counter, and appends the record to the iteration order |
| Storage.MemStorage.constructor | server/storage.ts:24-29 | both maps empty and both counters at 1 |
| Storage.MemStorage.CreateProject | server/storage.ts:31-41 | the project gets the counter's id, which no stored project has and which exceeds all of them; only that entry is added; the project counter advances by one and nothing else changes |
| Storage.MemStorage.GetProject | server/storage.ts:43-45 | the stored project under the id, or undefined when there is none |
| Storage.MemStorage.UpdateProject | server/storage.ts:47-59 | an absent id returns undefined and changes nothing; a present id stores the overlay under the same key and returns it; no other entry or counter changes |
| Storage.MemStorage.CreatePartnerRecommendations | server/storage.ts:61-78 | the returned records are `Created(rows, counter)`, appended to the iteration order; the counter advances by the count; earlier records and the project side are untouched |
| Storage.MemStorage.StoreRecommendation | server/storage.ts:64-75 | one loop iteration: the next id, the record, and its place at the end of the map |
| Storage.MemStorage.GetPartnerRecommendationsByProjectId | server/storage.ts:80-84 | exactly the stored records of the project, in insertion order |
| Routes.ErrorResponse | server/routes.ts:39-55 | 402 iff the message contains "429" or "quota"; else 401 iff it contains "401"; else 500 carrying the message |
| Routes.ProjectRow | server/routes.ts:24-31 | the row both analysis routes create: the stored project is exactly the request's name, description, stage, funding stage and categories, its id, and null results |
| Routes.UndefinedIfEmpty | server/routes.ts:70-71 | an empty `community`/`tvl` becomes undefined; any other is kept |
| Routes.ToInsert | server/routes.ts:60-72 | one partner as a store row: the project id, name, type, description, reasoning and four scores copied; `community`/`tvl` undefined exactly when empty and the given text otherwise (`Routes.PartnerThroughStore` follows it through the store) |
| Routes.InsertRows | server/routes.ts:60-72 | one store row per analysed partner, in order, tagged with the project id |
| Routes.ToResponse | server/routes.ts:87-100 | one stored record as sent back: name, type, description, reasoning, the match score and the three nested sub-scores, and `community`/`tvl` copied |
| Routes.ResultsRecord | server/routes.ts:77-80 | the stored results object: `summary` and `partnersCount` always, `isDemo: true` exactly for the demo route |
| Routes.ResponsePartners | server/routes.ts:87-100 | one response partner per stored record, in order |
| Routes.Analyze | server/routes.ts:10-109 | an invalid body gives 400 and leaves the store untouched; otherwise the project is created first with null results and stays on 402/401/500; on success the partners are stored, `partnersCount` equals their number, the recommendation counter advances by that number, and the response lists the stored records in order, which are exactly the project's recommendations |
| Routes.AnalyzeDemo | server/routes.ts:140-219 | an invalid body gives 400 and leaves the store untouched; otherwise the backend is not consulted, the demo partners are stored, the recommendation counter advances by their number, the response and the stored results carry the generator's summary for this request (with the rounded mean match score), and both carry `isDemo: true` |
| Routes.OpenProject | server/routes.ts:24-31 | the project is stored under a fresh id that no stored recommendation names |
| Routes.AppendKnown | server/routes.ts:24-72 | records of a stored project appended to records that all name stored projects keep that property |
| Routes.FreshFilter | server/routes.ts:59-73 | the records of a freshly created project, appended after records of other projects, are exactly what filtering by its id returns |
| Routes.StoreAnalysis | server/routes.ts:59-101 | the shared success path: the created records, the recommendation counter advanced by their number, the results object with summary and count, and a response listing the records |
| Routes.GetProject | server/routes.ts:112-137 | 400 for an id that does not parse, 404 for an unknown id, otherwise the project with exactly its recommendations in insertion order; nothing is written |
| Routes.ParseInt | server/routes.ts:114 | a digit first gives a non-negative number; neither digit nor sign first gives none; after a sign there is a number iff a digit follows; the value is the sign times the leading digits read in decimal |
| Routes.DigitPrefix | server/routes.ts:114 | the longest run of leading decimal digits |
| Routes.ParseIntRendered | server/routes.ts:114 | a decimal id, with or without trailing non-digits, parses to that id |
| Routes.ParseIntRejects | server/routes.ts:114-117 | a segment starting with neither sign nor digit is not a number, so the route answers 400 |
| Routes.BackendQuotaIs402 | server/routes.ts:39-45 | a backend error mentioning 429 always reaches the client as 402 |
| Routes.BackendErrorClassified | server/routes.ts:39-55 | any other backend error is classified on its own text: "quota" gives 402, else "401" gives 401, else 500 |
| Routes.MalformedReplyIs500 | server/routes.ts:102-107 | a badly shaped or null reply, or a null partner entry, gives 500 |
| Routes.PartnerThroughStore | server/routes.ts:59-100 | a partner reaches the response with the same text and scores, the sub-scores nested, and an empty `community`/`tvl` sent as null |
| Client.Endpoint | client/src/pages/home.tsx:101 | the demo endpoint iff demo mode is set, otherwise `/api/analyze` |
| Client.Mutation | client/src/pages/home.tsx:99-116 | a first success is returned as is; after a quota-like failure the outcome is the demo retry marked `isDemo`, or the retry's own error; after any other failure that is key-like, the fixed key message; otherwise the first error unchanged |
| Client.QuotaLike | client/src/pages/home.tsx:106-113 | the test for the demo retry; the fixed key message fails it, so a key error the page raises never triggers the retry |
| Client.KeyLike | client/src/pages/home.tsx:112-113 | the test for the key rewrite; the fixed key message passes it |
| Client.Requests | client/src/pages/home.tsx:101-108 | one request, plus a second to the demo endpoint iff the first failed with a quota-like message |
| Client.SuccessFor | client/src/pages/home.tsx:118-128 | the title is "Demo Analysis Complete" iff `isDemo`, otherwise "Analysis Complete" |
| Client.FailureFor | client/src/pages/home.tsx:129-140 | the toast shows the message and offers Settings iff it contains "API key" |
| Client.Home.constructor | client/src/pages/home.tsx:83-84 | no result shown and demo mode off |
| Client.Home.Submit | client/src/pages/home.tsx:98-145 | the requests made; demo mode turns on after a quota-like failure; on success the result is stored and the success toast shown, on failure the result is kept and the error toast shown |
| Client.Home.ToggleDemo | client/src/pages/home.tsx:371 | the mode flips and nothing else changes |
| Client.Home.NewAnalysis | client/src/pages/home.tsx:147-150 | the shown result is cleared and the mode stays |
| Client.QuotaBeforeKey | client/src/pages/home.tsx:106-113 | a message both quota-like and key-like takes the demo path; the outcome is the retry's |
| Client.InvalidReportedAsKey | client/src/pages/home.tsx:112-113 | any message with "Invalid" that is not quota-like is reported as the fixed key error, which offers Settings |
| Client.AuthReportedAsKey | client/src/pages/home.tsx:112-113 | any message with "401" that is not quota-like is reported as the fixed key error after a single request |
| Client.FailedRetryRethrown | client/src/pages/home.tsx:106-110 | when the demo retry fails as well, its own error reaches the toast unchanged |
| Client.KeyMessageIsPlain | client/src/pages/home.tsx:113 | the fixed key message contains "Invalid" and neither "402" nor "quota" |
| Client.KeyMessageOffersSettings | client/src/pages/home.tsx:113 | the fixed key message contains "API key" |
| Client.OtherErrorsRethrown | client/src/pages/home.tsx:115 | any other error reaches the toast unchanged after a single request |
| Client.FallbackShowsDemoToast | client/src/pages/home.tsx:106-120 | a successful fallback always shows the demo title |
| Client.SuccessCountsPartners | client/src/pages/home.tsx:123 | the success description counts the partners in decimal |

## Left out

- The backend chat call and `JSON.parse` are not modelled. Their outcome is the `Reply` parameter. The prompt text, the model settings and the client's key handling are outside the model.
- `apiRequest` and `response.json()` are not modelled. Their outcome is the `Fetch` parameter, because the format of their error messages is not part of this model.
- Numbers are integers. Fractional scores and NaN are not modelled.
- Analyzer.NormalizeScore: does not model coercion of a truthy non-number. In the code a string such as "75" is compared numerically and "abc" gives NaN; the model treats any truthy non-number as 50. For numbers and falsy values it is exact.
- Analyzer.NormalizeText: a truthy non-string (a number, an object) passes through `x || d` in the code; the model replaces it with the default, because its partner fields are strings.
- Analyzer.AnalyzeReply: a property read on a parsed reply that is a non-null primitive gives `undefined` in both the code and the model. The TypeError texts for a null reply or a null partner entry are modelled with the wording a current JavaScript engine uses.
- Schema.SafeParse: lengths count Unicode scalar values, while zod counts UTF-16 code units. A description with characters outside the Basic Multilingual Plane may be judged differently. The validator's issue list on a 400 is not modelled.
- Routes.ParseInt: leading whitespace, "0x" prefixes and precision loss on very long digit runs are not modelled. The route only needs "numeric or not" and the value.
- `createdAt` timestamps (a clock read) and `console.error` logging are not modelled.
- The module-level `storage` singleton is not modelled: the store is passed explicitly.
- Promises and `async`/`await` are not modelled: every step runs in order.
- The catch-all 500 of the demo route and the GET route cannot fire in the model, because no modelled step throws there.
- The exact JSON bodies of the 400, 401 and 402 responses (their fixed message and hint texts) are not modelled. The response constructors stand for them.
- The JSX, form handling and rendering of the home page are not modelled, and neither is `form.reset()` in "New Analysis".
- The dashboard, history and settings pages are not modelled: they are static pages with mock data.
