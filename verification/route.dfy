/**
 The `POST` handler of `src/app/api/process-resume/route.ts`: read the resume
 URL, download the file, reject empty and mislabelled files, extract the text,
 check the job corpus, analyse the text, build the job query and answer with
 the ranked jobs. Every thrown error ends in the handler's `catch` as a 500.

 Network, storage, database and model results are the oracles of `Services`.
 */
module ProcessResume {
  import opened Wrappers
  import opened Text
  import opened JsonValues
  import opened Extraction
  import opened QueryFilter
  import opened Ranking

  /** A form field: text, or an uploaded file (whose string form is `[object File]`). */
  datatype FormValue = FormText(text: string) | FormFile(name: string)

  /** The request body as the handler reads it. */
  datatype Request =
    | Multipart(fields: map<string, FormValue>)   // content type contains multipart/form-data
    | JsonBody(resumeUrl: Option<string>)          // any other content type: `body.resumeUrl`
    | Unreadable(message: string)                  // `formData()` or `json()` threw

  /** What `fetch(resumeUrl)` did. */
  datatype Download =
    | FetchRejected(message: string)
    | Fetched(ok: bool, status: nat, contentType: Option<string>,
              body: Result<seq<byte>, string>)   // `response.arrayBuffer()`, or the message it rejects with

  /** The analysis as the route reads it; `bestMatches` is read but never checked. */
  datatype AiData = AiData(titles: Json, skills: Json, experience: Json, bestMatches: Option<seq<BestMatch>>)

  /** The JSON response: an error with its status, or the ranked jobs (status 200). */
  datatype Response =
    | Failure(status: nat, error: string)
    | Success(jobs: seq<RankedJob>, aiInsights: AiData, summary: Summary)

  /** The handler's collaborators, as the outcomes they produce. */
  datatype Services = Services(
    download: string -> Download,
    extractors: Extractors,
    corpus: Result<seq<Job>, string>,                   // `from("jobs").select("*")`
    analyze: string -> AiData,                          // `analyzeResume(extractedText, ...)`
    query: Option<string> -> Result<seq<Job>, string>)  // the filtered query, by its `or` filter

  const NoUrl := "No resume URL provided"
  const EmptyFile := "Downloaded file is empty"
  const InvalidPdf := "Invalid PDF file."
  const NoText := "No text found in resume."
  const InvalidAi := "AI analysis returned invalid format"
  const QueryFailed := "Failed to query jobs"

  /** The messages of the handler's 400 responses. */
  const RejectionMessages: set<string> := {NoUrl, EmptyFile, InvalidPdf, NoText}

  /** The `catch` block: status 500 with the error's message, or `Unknown error`. */
  function Thrown(message: string): (r: Response)
    ensures r.Failure? && r.status == 500 && r.error != ""
    ensures message != "" ==> r.error == message
    ensures message == "" ==> r.error == "Unknown error"
  {
    Failure(500, if message == "" then "Unknown error" else message)
  }

  /** `String(value)` of a form field. */
  function FormString(v: FormValue): string {
    match v
    case FormText(t) => t
    case FormFile(_) => "[object File]"
  }

  /** The resume URL the handler reads: the `resumeUrl` field of the form or
      of the JSON body, `""` when absent. */
  function ResumeUrl(req: Request): (r: Result<string, string>)
    ensures req.Multipart? && "resumeUrl" in req.fields ==> r == Ok(FormString(req.fields["resumeUrl"]))
    ensures req.Multipart? && "resumeUrl" !in req.fields ==> r == Ok("")
    ensures req.Unreadable? ==> r == Err(req.message)
    ensures req.JsonBody? ==> r == Ok(req.resumeUrl.GetOr(""))
  {
    match req
    case Multipart(fields) => Ok(if "resumeUrl" in fields then FormString(fields["resumeUrl"]) else "")
    case JsonBody(url) => Ok(url.GetOr(""))
    case Unreadable(m) => Err(m)
  }

  /** The analysis has array-valued `titles` and `skills`. */
  predicate ShapeOk(ai: AiData) {
    ai.titles.JArray? && ai.skills.JArray?
  }

  /** The handler. */
  function Post(req: Request, env: Services): (r: Response)
    ensures r.Failure? ==> r.status == 400 || r.status == 500
    ensures r.Failure? && r.status == 400 ==> r.error in RejectionMessages
    ensures r.Success? ==> ShapeOk(r.aiInsights) && Sorted(r.jobs) && r.summary.totalJobs == |r.jobs|
  {
    match ResumeUrl(req)
    case Err(m) => Thrown(m)
    case Ok(url) => if url == "" then Failure(400, NoUrl) else FetchResume(url, env)
  }

  /** From the download on: a failed or non-ok download is thrown, as is a
      body that cannot be read; an empty body is rejected. */
  function FetchResume(url: string, env: Services): (r: Response)
    ensures r.Failure? ==> r.status == 400 || r.status == 500
    ensures r.Failure? && r.status == 400 ==> r.error in RejectionMessages
    ensures r.Success? ==> ShapeOk(r.aiInsights) && Sorted(r.jobs) && r.summary.totalJobs == |r.jobs|
  {
    match env.download(url)
    case FetchRejected(m) => Thrown(m)
    case Fetched(ok, status, contentType, body) =>
      if !ok then Thrown("Failed to fetch resume: HTTP " + NatToString(status))
      else match body
        case Err(m) => Thrown(m)
        case Ok(bytes) =>
          if |bytes| == 0 then Failure(400, EmptyFile)
          else ValidateAndExtract(url, contentType.GetOr(""), bytes, env)
  }

  /** From the signature gate on: the gate, then extraction and the blank-text check. */
  function ValidateAndExtract(url: string, fileType: string, body: seq<byte>, env: Services): (r: Response)
    ensures r.Failure? ==> r.status == 400 || r.status == 500
    ensures r.Failure? && r.status == 400 ==> r.error in RejectionMessages
    ensures r.Success? ==> ShapeOk(r.aiInsights) && Sorted(r.jobs) && r.summary.totalJobs == |r.jobs|
  {
    if SignatureRejects(fileType, url, body) then Failure(400, InvalidPdf)
    else
      match ExtractTextFromBuffer(fileType, Some(url), env.extractors)
      case Err(m) => Thrown(m)
      case Ok(text) => if IsBlank(text) then Failure(400, NoText) else AnalyseAndQuery(text, env)
  }

  /** From the corpus read on: corpus error, analysis shape, filter, query, ranking. */
  function AnalyseAndQuery(text: string, env: Services): (r: Response)
    ensures r.Failure? ==> r.status == 500
    ensures r.Success? ==> ShapeOk(r.aiInsights) && Sorted(r.jobs)
    ensures r.Success? ==> r.summary == Summarise(r.jobs, text) && r.summary.extractedTextLength == |text|
  {
    match env.corpus
    case Err(m) => Thrown("Failed to fetch jobs: " + m)
    case Ok(_) =>
      var ai := env.analyze(text);
      if !ShapeOk(ai) then Failure(500, InvalidAi)
      else
        match BuildFilter(ai.titles.items, ai.skills.items)
        case Err(m) => Thrown(m)
        case Ok(filter) =>
          match env.query(filter)
          case Err(_) => Failure(500, QueryFailed)
          case Ok(matched) =>
            var jobs := Rank(matched, ai.bestMatches);
            Success(jobs, ai, Summarise(jobs, text))
  }

  /** The order of the checks: each one decides the response only when every
      earlier one passed. */
  lemma CheckOrder(req: Request, env: Services, url: string)
    requires ResumeUrl(req) == Ok(url)
    ensures url == "" ==> Post(req, env) == Failure(400, NoUrl)
    ensures url != "" ==> Post(req, env) == FetchResume(url, env)
    ensures url != "" && env.download(url).FetchRejected? ==> Post(req, env).Failure? && Post(req, env).status == 500
    ensures url != "" && env.download(url).Fetched? ==>
      var d := env.download(url);
      && (!d.ok ==> Post(req, env) == Failure(500, "Failed to fetch resume: HTTP " + NatToString(d.status)))
      && (d.ok && d.body.Err? ==> Post(req, env) == Thrown(d.body.error))
      && (d.ok && d.body.Ok? && |d.body.value| == 0 ==> Post(req, env) == Failure(400, EmptyFile))
      && (d.ok && d.body.Ok? && |d.body.value| > 0 ==>
            Post(req, env) == ValidateAndExtract(url, d.contentType.GetOr(""), d.body.value, env))
  {
  }

  /** The later checks, in order, once the file is downloaded and not empty. */
  lemma CheckOrderAfterDownload(url: string, fileType: string, body: seq<byte>, env: Services)
    ensures var r := ValidateAndExtract(url, fileType, body, env);
      var x := ExtractTextFromBuffer(fileType, Some(url), env.extractors);
      && (SignatureRejects(fileType, url, body) ==> r == Failure(400, InvalidPdf))
      && (!SignatureRejects(fileType, url, body) && x.Err? ==> r.Failure? && r.status == 500)
      && (!SignatureRejects(fileType, url, body) && x.Ok? && IsBlank(x.value) ==> r == Failure(400, NoText))
      && (!SignatureRejects(fileType, url, body) && x.Ok? && !IsBlank(x.value) ==> r == AnalyseAndQuery(x.value, env))
  {
  }

  /** The checks after extraction, in order: corpus error, analysis shape,
      filter construction, query error. */
  lemma CheckOrderAfterExtraction(text: string, env: Services)
    ensures var r := AnalyseAndQuery(text, env);
      var ai := env.analyze(text);
      && (env.corpus.Err? ==> r == Failure(500, "Failed to fetch jobs: " + env.corpus.error))
      && (env.corpus.Ok? && !ShapeOk(ai) ==> r == Failure(500, InvalidAi))
      && (env.corpus.Ok? && ShapeOk(ai) && BuildFilter(ai.titles.items, ai.skills.items).Err? ==>
            r == Failure(500, "title.trim is not a function"))
      && (env.corpus.Ok? && ShapeOk(ai) && BuildFilter(ai.titles.items, ai.skills.items).Ok? ==>
            var q := env.query(BuildFilter(ai.titles.items, ai.skills.items).value);
            && (q.Err? ==> r == Failure(500, QueryFailed))
            && (q.Ok? ==> r == Success(Rank(q.value, ai.bestMatches), ai, Summarise(Rank(q.value, ai.bestMatches), text))))
  {
    var ai := env.analyze(text);
    if env.corpus.Ok? && ShapeOk(ai) && BuildFilter(ai.titles.items, ai.skills.items).Err? {
      var ts := Truthies(ai.titles.items);
      assert TitleConditions(ts).Err?;
    }
  }

  /** Every 400 is decided before the corpus is read: such a response does not
      depend on the corpus, the analysis or the job query. */
  lemma RejectionsPrecedeBackend(req: Request, env: Services, corpus: Result<seq<Job>, string>,
                                 analyze: string -> AiData, query: Option<string> -> Result<seq<Job>, string>)
    requires Post(req, env).Failure? && Post(req, env).status == 400
    ensures Post(req, env.(corpus := corpus, analyze := analyze, query := query)) == Post(req, env)
  {
    var env' := env.(corpus := corpus, analyze := analyze, query := query);
    match ResumeUrl(req)
    case Err(_) =>
    case Ok(url) =>
      if url != "" {
        match env.download(url)
        case FetchRejected(_) =>
        case Fetched(ok, status, contentType, body) =>
          if ok && body.Ok? && |body.value| > 0 {
            var ft := contentType.GetOr("");
            if !SignatureRejects(ft, url, body.value) {
              match ExtractTextFromBuffer(ft, Some(url), env.extractors)
              case Err(_) =>
              case Ok(text) =>
                if !IsBlank(text) {
                  assert false;
                }
            }
          }
      }
  }

  /** A file claimed as PDF without the `%PDF` signature is rejected before any
      extractor runs: the response is the same whatever the extractors do. */
  lemma SignatureGateSkipsExtraction(req: Request, env: Services, url: string, ex: Extractors)
    requires ResumeUrl(req) == Ok(url) && url != ""
    requires env.download(url).Fetched? && env.download(url).ok
    requires env.download(url).body.Ok? && |env.download(url).body.value| > 0
    requires SignatureRejects(env.download(url).contentType.GetOr(""), url, env.download(url).body.value)
    ensures Post(req, env) == Failure(400, InvalidPdf)
    ensures Post(req, env.(extractors := ex)) == Failure(400, InvalidPdf)
  {
  }

  /** The corpus rows are passed to an analyzer that does not take them: only
      whether the corpus read failed affects the response. */
  lemma CorpusRowsUnused(req: Request, env: Services, rows: seq<Job>)
    requires env.corpus.Ok?
    ensures Post(req, env.(corpus := Ok(rows))) == Post(req, env)
  {
    var env' := env.(corpus := Ok(rows));
    forall text: string ensures AnalyseAndQuery(text, env') == AnalyseAndQuery(text, env) { }
    forall url: string, ft: string, body: seq<byte>
      ensures ValidateAndExtract(url, ft, body, env') == ValidateAndExtract(url, ft, body, env) { }
    forall url: string ensures FetchResume(url, env') == FetchResume(url, env) { }
  }
}
