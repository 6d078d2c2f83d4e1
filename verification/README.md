# Resume-to-jobs pipeline, modelled in Dafny

This project models the server and client logic that turns an uploaded resume into a ranked list of jobs. It has three parts.

- **The `POST /api/process-resume` handler** reads a resume URL and downloads the file. It rejects empty files and mislabelled PDFs, then extracts the text: PDF through a first-non-blank-wins strategy loop, DOCX, or plain text. It checks the job corpus and asks the analyzer for titles and skills, builds a PostgREST `or` filter from them, and queries the jobs. It then attaches a relevance to each job, stable-sorts the jobs by relevance and adds a summary. Every thrown error becomes a 500 response.
- **The resume analyzer `analyzeResume`** sends the first 15000 characters of the resume to a chat-completion model. It parses the model's JSON answer and clamps it to at most 5 titles, at most 10 skills and an `experience` value. Every failure is caught and yields the all-empty result.
- **The client job store** has four fields: `jobs`, `aiInsights`, `loading` and `error`. `fetchJobs` runs a start transition, then a success or failure transition. `reset` is a separate transition.

Everything outside the code itself is a parameter of the model rather than a call. That covers the network, storage, the database, pdf2json, mammoth, UTF-8 decoding, `decodeURIComponent` and the model. These appear either as function-typed oracles (`send`, `parse`, `download`, `analyze`, `query`, `decode`) or as outcome datatypes (`Reply`, `Download`, `Attempt`, `Extractors`, `FetchOutcome`). The JavaScript semantics the code relies on are written out explicitly:

- truthiness, `||` and `filter(Boolean)`;
- `trim`, over the full ECMAScript white-space and line-terminator set;
- `includes`, `startsWith` and `endsWith`;
- `slice(0, n)` and `join`;
- `String(...)`;
- the `TypeError` thrown when a property of `null` or `undefined` is read.

Modules follow the program's structure:

| module | models |
|---|---|
| `Wrappers` | `Option` and `Result` |
| `Text` | string operations |
| `JsonValues` | parsed JSON values |
| `Extraction` | `extractTextFromBuffer`, `extractTextFromPDF`, the pdf2json page join and the `%PDF` gate |
| `QueryFilter` | the filter string |
| `Ranking` | enrichment, the stable sort and the summary |
| `ProcessResume` | the `POST` handler |
| `Analyzer` | `openrouter.ts` |
| `JobStore` | `useJobStore.ts` |
| `Pipeline` | the route composed with the real analyzer |

Three facts of the code are modelled as written:

- **The route passes the job corpus to `analyzeResume`, which takes one parameter.** The corpus rows therefore never affect the response (`ProcessResume.CorpusRowsUnused`).
- **The analyzer never returns `bestMatches`.** With the real analyzer, every job has relevance 0, the jobs stay in query order and `topRelevance` is 0 (`Pipeline.RankWithoutMatches`, `Pipeline.NormalisedAnalysisRun`, `Pipeline.LiveAnalysis`).
- **The store posts its file under the form field `resume`, while the route reads `resumeUrl`.** Every request the store sends is therefore answered with 400 "No resume URL provided". The store then records "Server error: 400" (`JobStore.StoreRequestAlwaysRejected`).

Three further facts about the code shape the model:

- `extractTextFromPDF` returns the untrimmed text of the first strategy whose trimmed text is non-empty. `extractedTextLength` in the summary is the length of that untrimmed text.
- `extractTextFromPDF` registers one strategy, pdf2json (route.ts line 28). `PdfLoop` is stated for any list of strategies, and the route uses the one-element list.
- The only ranking the route applies is the `bestMatches` lookup (route.ts line 199).

## Model

| member | source | states |
|---|---|---|
| Extraction.Classify | src/app/api/process-resume/route.ts:56-70 | The file kind is PDF exactly when the content type contains `pdf` or the lower-cased name ends in `.pdf`. It is DOCX exactly when it is not PDF and a DOCX hint holds, and TXT exactly when neither of those holds and a TXT hint does. Anything else is refused with `Unsupported file type: ` followed by the content type. |
| Extraction.SuffixAnyCase | src/app/api/process-resume/route.ts:56-60 | `cv.PDF` is classified as PDF and `cv.DocX` as DOCX: those suffix tests ignore case. |
| Extraction.TxtSuffixCaseSensitive | src/app/api/process-resume/route.ts:61-70 | `cv.txt` is classified as text, but `cv.TXT` with no content type is unsupported: the `.txt` test is case-sensitive. |
| Extraction.PdfLoop | src/app/api/process-resume/route.ts:30-47 | The loop succeeds exactly when some strategy returned non-blank text, and then returns the untrimmed text of the first such strategy. When it fails, the error names the message of the last strategy that threw, or the previous error (`Unknown` when there is none) if no strategy threw. |
| Extraction.ExtractTextFromPdf | src/app/api/process-resume/route.ts:27-47 | A PDF extraction that succeeds yields non-blank text. A failure's message starts with `All PDF extraction methods failed. Last error: `. |
| Extraction.FirstUsable | src/app/api/process-resume/route.ts:32-36 | A proof helper for `ExtractTextFromPdf`. It finds the first usable strategy and shows that every strategy before it is unusable. |
| Extraction.LastThrowOrNone | src/app/api/process-resume/route.ts:37-40 | A proof helper for `ExtractTextFromPdf`. It finds the last strategy that threw, or shows that none threw. |
| Extraction.Pdf2JsonBlank | src/app/api/process-resume/route.ts:14-20 | The pdf2json text, pages joined by newlines and items by spaces, is blank exactly when every decoded text item is blank. |
| Extraction.ExtractTextFromBuffer | src/app/api/process-resume/route.ts:51-71 | Dispatches on the classification. PDF runs the strategy loop. DOCX yields mammoth's value, `""` when it has none, or propagates mammoth's error. TXT yields the UTF-8 decoding. Anything else is the unsupported-type error. |
| Extraction.GateGuardsPdfExtraction | src/app/api/process-resume/route.ts:112-124 | The signature gate fires exactly when the file would be extracted as a PDF but does not start with the bytes `%PDF`. Every buffer that passes the gate and is extracted as a PDF starts with `%PDF`. A buffer shorter than four bytes that is claimed as a PDF is always rejected. |
| ProcessResume.ResumeUrl | src/app/api/process-resume/route.ts:78-87 | A form with a `resumeUrl` field yields that field's string form, and a form without one yields `""`. A JSON body yields its `resumeUrl`, or `""` when it is absent. An unreadable body is an error carrying its message. |
| ProcessResume.Thrown | src/app/api/process-resume/route.ts:217-225 | Any thrown error becomes a 500 carrying its message, or `Unknown error` when the message is empty. |
| ProcessResume.Post | src/app/api/process-resume/route.ts:74-94 | Every failure has status 400 or 500. Every 400 carries one of the four rejection messages. A success has array `titles` and `skills`, jobs sorted by relevance, and `totalJobs` equal to the number of jobs. |
| ProcessResume.FetchResume | src/app/api/process-resume/route.ts:96-108 | From the download onward, including an unreadable body, the same guarantees hold: failures are 400 or 500, every 400 carries a rejection message, and a success has the checked shape. |
| ProcessResume.ValidateAndExtract | src/app/api/process-resume/route.ts:110-130 | The same guarantees hold from the signature gate onward. |
| ProcessResume.AnalyseAndQuery | src/app/api/process-resume/route.ts:132-216 | After extraction the handler can only fail with 500. A success has the shape-checked analysis, sorted jobs, and the summary of those jobs with the extracted text's length. |
| ProcessResume.CheckOrder | src/app/api/process-resume/route.ts:89-108 | The first checks in order: missing URL → 400; rejected download → 500; non-ok download → 500 `Failed to fetch resume: HTTP <status>`; a body that cannot be read → 500 with the rejection's message; empty body → 400. Otherwise the handler continues with the signature gate. |
| ProcessResume.CheckOrderAfterDownload | src/app/api/process-resume/route.ts:110-130 | Next in order: bad signature → 400, extraction error → 500, blank text → 400. Otherwise the handler continues with the analysis. |
| ProcessResume.CheckOrderAfterExtraction | src/app/api/process-resume/route.ts:132-194 | Last in order: corpus error → 500 `Failed to fetch jobs: …`; analysis without array titles or skills → 500; a non-string truthy title → 500 `title.trim is not a function`; query error → 500 `Failed to query jobs`. Otherwise the response is the ranked query result. |
| ProcessResume.RejectionsPrecedeBackend | src/app/api/process-resume/route.ts:89-130 | A 400 response does not depend on the corpus, the analyzer or the job query: every rejection comes before them. |
| ProcessResume.SignatureGateSkipsExtraction | src/app/api/process-resume/route.ts:112-117 | A file claimed as PDF without the signature gets 400 `Invalid PDF file.`, whatever the extractors would do. |
| ProcessResume.CorpusRowsUnused | src/app/api/process-resume/route.ts:133-143 | Once the corpus read succeeds, its rows do not affect the response. |
| QueryFilter.TitleCondition | src/app/api/process-resume/route.ts:160 | A title yields a condition exactly when it is a string. |
| QueryFilter.TitleConditions | src/app/api/process-resume/route.ts:158-160 | Mapping succeeds exactly when every title is a string. The conditions then correspond one-to-one with the titles, in order. Otherwise the error is `title.trim is not a function`. |
| QueryFilter.BuildFilter | src/app/api/process-resume/route.ts:158-175 | Building fails exactly when some truthy title is not a string. No filter is added exactly when the truthy titles and the truthy skills are both empty. |
| QueryFilter.FilterLayout | src/app/api/process-resume/route.ts:164-174 | The title group comes first and the skill group second, joined by `,`. Each group is present exactly when its list has a truthy element. |
| QueryFilter.BlankTitleMatchesEverything | src/app/api/process-resume/route.ts:158-168 | Titles `""` and `"  "` give the filter `(title.ilike.%%)`: the empty title is dropped, and the blank one trims to an empty pattern. |
| Ranking.FindMatch | src/app/api/process-resume/route.ts:199 | Finds the first entry with the job's id. No entry is found exactly when no entry has that id. |
| Ranking.MatchFor | src/app/api/process-resume/route.ts:199 | The match found is the first entry of `bestMatches` with the job's id. No match is found exactly when `bestMatches` is missing or no entry has that id. |
| Ranking.Enrich | src/app/api/process-resume/route.ts:198-204 | The job is kept unchanged. Relevance is the match's score, or 0 without a match or a score. The matched-skill count is the length of the match's `matchingSkills`, or 0 without a match or without that list. |
| Ranking.Insert | src/app/api/process-resume/route.ts:206 | Inserting into a sorted list keeps it sorted and adds exactly the inserted job. |
| Ranking.InsertClass | src/app/api/process-resume/route.ts:206 | Insertion puts the job in front of the jobs of equal relevance and leaves every other relevance class unchanged. |
| Ranking.SortByRelevance | src/app/api/process-resume/route.ts:206 | The result is non-increasing by relevance and is a permutation of the input. |
| Ranking.SortStable | src/app/api/process-resume/route.ts:206 | For every relevance value, the jobs with that relevance keep their input order. |
| Ranking.Rank | src/app/api/process-resume/route.ts:196-206 | The ranked jobs are sorted, as many as the queried jobs, and a permutation of the enriched jobs. Each one is the enrichment of a queried job, and jobs of equal relevance keep query order. |
| Ranking.StableSortUnique | src/app/api/process-resume/route.ts:206 | Any sorted list that keeps every relevance class in input order is exactly the sort's output. |
| Ranking.SortedSameClassesEqual | src/app/api/process-resume/route.ts:206 | Two sorted lists with the same relevance classes, in the same order, are equal. |
| Ranking.HeadIsMax | src/app/api/process-resume/route.ts:213 | The first job of a sorted non-empty list has the maximum relevance. |
| Ranking.Summarise | src/app/api/process-resume/route.ts:208-216 | `totalJobs` is the number of jobs and `extractedTextLength` is the untrimmed text length. For sorted non-empty jobs, `topRelevance` is a relevance some job has and no job exceeds; for no jobs it is 0. |
| Analyzer.UserMessage | src/lib/openrouter.ts:22-25 | The message is the prefix of the resume of length min(n, 15000). |
| Analyzer.ArrayPrefix | src/lib/openrouter.ts:42-43 | An array value is clamped to its first min(length, n) elements, in order. Anything else gives `[]`. |
| Analyzer.Normalise | src/lib/openrouter.ts:40-45 | Normalisation fails exactly on `null`. Otherwise `titles` is the ≤5 prefix of an array `titles`, else `[]`, and `skills` is the ≤10 prefix of an array `skills`, else `[]`. `experience` is the truthy `experience`, else `""`. A non-object gives the empty result, and the result is always well-formed. |
| Analyzer.MessageContent | src/lib/openrouter.ts:38 | Reading `data.choices[0].message.content` succeeds exactly when `data` is an object whose `choices[0]` exists and is an object with a non-null `message`. Every other case throws, including a non-object first choice and a `choices` without an element `0`. For an object message it yields that message's `content`, or `undefined` when the field is absent. |
| Analyzer.AnalyzeResume | src/lib/openrouter.ts:1-50 | The result is always well-formed. The empty result is returned for a rejected request, a non-ok response, an unreadable response body, and a response whose `choices[0].message.content` cannot be read. |
| Analyzer.AnalyzeOutcome | src/lib/openrouter.ts:37-48 | For an ok reply, a parse failure or a parsed `null` gives the empty result. Any other parsed value gives exactly its normalisation. |
| Analyzer.NormaliseFixesWellFormed | src/lib/openrouter.ts:41-45 | A well-formed result normalises to itself. |
| Analyzer.NormaliseIdempotent | src/lib/openrouter.ts:41-45 | Normalising a normalised result gives it back unchanged. |
| Analyzer.OnlyPrefixMatters | src/lib/openrouter.ts:24 | Two resumes that agree on their first 15000 characters get the same analysis. |
| JobStore.FetchRequest | src/utils/store/useJobStore.ts:37-43 | The posted form carries the file under `resume` and has no `resumeUrl` field. |
| JobStore.StartFetch | src/utils/store/useJobStore.ts:34 | Starting sets `loading` and clears `error`. Jobs and insights are untouched. |
| JobStore.FailureMessage | src/utils/store/useJobStore.ts:45-56 | A non-ok status records `Server error: <status>`. A thrown error records its message, or `Failed to process resume` when the message is empty. The recorded message is never empty. |
| JobStore.Complete | src/utils/store/useJobStore.ts:45-57 | Completion clears `loading`. Success replaces jobs and insights and keeps `error`. Failure records the message and keeps jobs and insights. |
| JobStore.FetchJobs | src/utils/store/useJobStore.ts:33-58 | After a completed fetch `loading` is false, and `error` is null exactly when the fetch succeeded. Jobs and insights are replaced on success and kept on failure. |
| JobStore.Reset | src/utils/store/useJobStore.ts:60-65 | Reset empties jobs and insights and clears `error`, but keeps `loading`. |
| JobStore.ResetProperties | src/utils/store/useJobStore.ts:27-65 | Reset gives back the initial state exactly when no fetch is in flight. Resetting twice is the same as resetting once. A failure with an empty message records `Failed to process resume`. |
| JobStore.ResponseOutcome | src/utils/store/useJobStore.ts:45-50 | An error response reaches the store as a non-ok status carrying its status. A successful response reaches it as delivered, with the response's jobs, its `aiInsights` titles and skills arrays, and its `experience`. |
| JobStore.StoreRequestAlwaysRejected | src/utils/store/useJobStore.ts:37-47 | The store's request is always answered with 400 `No resume URL provided`. The store ends with `Server error: 400`, its old jobs, and `loading` false. |
| Pipeline.FromInsights | src/lib/openrouter.ts:41-45 | The analyzer's result always has array `titles` and `skills` and never has `bestMatches`. |
| Pipeline.Live | src/app/api/process-resume/route.ts:143 | The route's analysis is the real analyzer's result. The download, extractors, corpus and query are the caller's, unchanged. |
| Pipeline.RankWithoutMatches | src/app/api/process-resume/route.ts:197-206 | Without `bestMatches`, the ranked jobs are the queried jobs in query order, each with relevance 0 and no matched skills. |
| Pipeline.NormalisedAnalysisRun | src/app/api/process-resume/route.ts:143-216 | With an analyzer result, the shape check never fires. A success lists the queried jobs in query order with relevance 0, and reports `topRelevance` 0. |
| Pipeline.LiveAnalysis | src/app/api/process-resume/route.ts:143-153 | With the real analyzer, the shape check never fires, and every returned job has relevance 0 and no matched skills. |
| JsonValues.Truthies | src/app/api/process-resume/route.ts:159 | `filter(Boolean)` keeps exactly the truthy elements, and only those. |
| JsonValues.TruthiesAppend | src/app/api/process-resume/route.ts:159-162 | `filter(Boolean)` keeps order and duplicates: filtering a concatenation concatenates the filtered parts. |
| JsonValues.TruthiesSingle | src/app/api/process-resume/route.ts:159 | A single element is kept exactly when it is truthy. |
| JsonValues.Get | src/lib/openrouter.ts:38 | A property read throws exactly on `null`. An object yields its field or `undefined`. |
| JsonValues.First | src/lib/openrouter.ts:38 | Indexing `[0]` throws exactly on `null`. An array yields its first element or `undefined`. |
| Text.TrimSpec | src/app/api/process-resume/route.ts:125 | `trim` removes exactly the leading and trailing white space. It is empty exactly for blank strings. |
| Text.JoinBlank | src/app/api/process-resume/route.ts:15-19 | Joining with a blank separator gives a blank string exactly when every piece is blank. |
| Text.LowerPdfSuffix | src/app/api/process-resume/route.ts:113 | The lower-cased name ends in `.pdf` exactly when the name ends in `.pdf` with each letter in either case. |
| Text.ToLowerIdempotent | src/app/api/process-resume/route.ts:57 | Lower-casing a lower-cased string changes nothing. |
| Text.Take | src/lib/openrouter.ts:24 | `slice(0, n)` is the prefix of length min(length, n). |
| Text.NatToString | src/utils/store/useJobStore.ts:46 | The decimal form of a status is a string of digits that denotes exactly that status, with no leading zero. |

## Left out

- The network, storage, Supabase, OpenRouter, pdf2json, mammoth, UTF-8 decoding and `decodeURIComponent` are not executed. Their outcomes are inputs of the model.
- Logging (`console.*`) has no effect on results and is not modelled.
- The `details` field of a 500 response is not modelled: it holds the stack in development builds, and the model has no runtime environment.
- The API key header and the fixed request fields sent to OpenRouter are left out. The model sees only the user message, the one part that depends on the input.
- The request body is abstracted to `Request`. Choosing between form data and JSON by the content type is part of that abstraction. A JSON `resumeUrl` that is not a string is left out, as is `body` being `null` (the model reads that as an unreadable body).
- Reading the query twice (`await query` at lines 177 and 186) is one oracle result. The first read only logs.
- `matchedJobs || []`: when the query returns no error it is modelled as returning a list. A `null` data field is left out.
- `!aiData` can never be true for an object result, so only the array checks on `titles` and `skills` are modelled.
- `Ranking.Enrich`: `matchScore` is modelled as an optional integer and `matchingSkills` as an optional list. Other JSON types in those fields, and the arithmetic of the sort comparator on non-numbers, are left out. `bestMatches` is modelled as a missing value or a list of entries with a string `jobId`. The 500s that `aiData.bestMatches?.find(...)` would raise are not modelled: a truthy `bestMatches` that is not an array, or a `null` entry met before a match, makes `find` throw a `TypeError`. A non-string `jobId`, which never equals a string `job.id`, is not modelled either. The analyzer the route calls never returns `bestMatches` (see `Pipeline.FromInsights`).
- `JsonValues.Json`: numbers are integers. Fractional numbers and their `String(...)` form are left out, because no property here depends on them.
- `Text.ToLower` lower-cases ASCII letters only. That is exact for the `.pdf` and `.docx` suffix tests, but not for other Unicode case mappings.
- `Text.Take` and string lengths count code points, where JavaScript counts UTF-16 code units. The two differ only for characters outside the Basic Multilingual Plane.
- `JsonValues.Get` does not model built-in properties of arrays and strings, such as `length`.
- `JobStore.ResponseOutcome`: a success response is read with its `aiInsights` arrays as typed values. A response body without `jobs` or `aiInsights`, which would leave them `undefined`, is left out.
- Concurrent `fetchJobs` calls interleaving their `set` calls are not modelled. Each call is one start followed by one completion.
- `src/lib/matchJobs.ts` is commented out and is not part of this model. The same goes for the UI pages, the upload glue (`src/app/resume/page.tsx`, `src/lib/uploadResume.ts`) and `src/utils/store/userStore.ts`, because they are rendering and I/O.
