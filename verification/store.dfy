/**
 The client job store of `src/utils/store/useJobStore.ts`: four fields and
 the transitions of `fetchJobs` (start, success, failure) and `reset`.
 The request `fetchJobs` sends is modelled by `FetchRequest`; its outcome is
 an input of `Complete`.
 */
module JobStore {
  import opened Wrappers
  import opened Text
  import opened Analyzer
  import opened Ranking
  import ProcessResume

  /** The store's state. */
  datatype State = State(jobs: seq<RankedJob>, aiInsights: Insights, loading: bool, error: Option<string>)

  /** The state the store is created with. */
  const Initial: State := State([], Empty, false, None)

  /** How the request of one `fetchJobs` call ended. */
  datatype FetchOutcome =
    | Threw(message: string)                           // `fetch` or `response.json()` threw
    | NotOk(status: nat)                               // `!response.ok`
    | Delivered(jobs: seq<RankedJob>, aiInsights: Insights)

  const FallbackError := "Failed to process resume"

  /** The form `fetchJobs` posts: the given file (or URL) under the field `resume`. */
  function FetchRequest(resume: ProcessResume.FormValue): (r: ProcessResume.Request)
    ensures r.Multipart? && "resume" in r.fields && r.fields["resume"] == resume
    ensures r.Multipart? && "resumeUrl" !in r.fields
  {
    ProcessResume.Multipart(map["resume" := resume])
  }

  /** `set({ loading: true, error: null })`. */
  function StartFetch(s: State): (t: State)
    ensures t.loading && t.error == None
    ensures t.jobs == s.jobs && t.aiInsights == s.aiInsights
  {
    s.(loading := true, error := None)
  }

  /** The message a failed fetch records: the error's message, or the fallback when it is empty. */
  function FailureMessage(outcome: FetchOutcome): (m: string)
    requires !outcome.Delivered?
    ensures m != ""
    ensures outcome.NotOk? ==> m == "Server error: " + NatToString(outcome.status)
    ensures outcome.Threw? && outcome.message != "" ==> m == outcome.message
    ensures outcome.Threw? && outcome.message == "" ==> m == FallbackError
  {
    match outcome
    case NotOk(status) => "Server error: " + NatToString(status)
    case Threw(message) => if message == "" then FallbackError else message
  }

  /** The end of `fetchJobs`: on success jobs and insights are replaced; on
      failure the error is recorded and jobs and insights stay. */
  function Complete(s: State, outcome: FetchOutcome): (t: State)
    ensures !t.loading
    ensures outcome.Delivered? ==>
      t.jobs == outcome.jobs && t.aiInsights == outcome.aiInsights && t.error == s.error
    ensures !outcome.Delivered? ==>
      t.jobs == s.jobs && t.aiInsights == s.aiInsights && t.error == Some(FailureMessage(outcome))
  {
    match outcome
    case Delivered(jobs, aiInsights) => s.(jobs := jobs, aiInsights := aiInsights, loading := false)
    case _ => s.(loading := false, error := Some(FailureMessage(outcome)))
  }

  /** One whole `fetchJobs` call. */
  function FetchJobs(s: State, outcome: FetchOutcome): (t: State)
    ensures !t.loading
    ensures t.error.None? <==> outcome.Delivered?
    ensures outcome.Delivered? ==> t.jobs == outcome.jobs && t.aiInsights == outcome.aiInsights
    ensures !outcome.Delivered? ==> t.jobs == s.jobs && t.aiInsights == s.aiInsights
  {
    Complete(StartFetch(s), outcome)
  }

  /** `reset`: jobs and insights emptied and the error cleared; `loading` is kept. */
  function Reset(s: State): (t: State)
    ensures t.jobs == [] && t.aiInsights == Empty && t.error == None
    ensures t.loading == s.loading
  {
    s.(jobs := [], aiInsights := Empty, error := None)
  }

  /** Reset returns to the initial state exactly when no fetch is in flight,
      and resetting twice is resetting once. */
  lemma ResetProperties(s: State)
    ensures Reset(s) == Initial <==> !s.loading
    ensures Reset(Reset(s)) == Reset(s)
    ensures FetchJobs(s, Threw("")).error == Some(FallbackError)
  {
  }

  /** The response status the store sees for a route response. */
  function ResponseOutcome(r: ProcessResume.Response): (o: FetchOutcome)
    ensures r.Failure? ==> o == NotOk(r.status)
    ensures r.Success? ==> o.Delivered? && o.jobs == r.jobs && o.aiInsights.experience == r.aiInsights.experience
    ensures r.Success? ==> o.aiInsights.titles == (if r.aiInsights.titles.JArray? then r.aiInsights.titles.items else [])
    ensures r.Success? ==> o.aiInsights.skills == (if r.aiInsights.skills.JArray? then r.aiInsights.skills.items else [])
  {
    match r
    case Failure(status, _) => NotOk(status)
    case Success(jobs, ai, _) =>
      Delivered(jobs, Insights(
        if ai.titles.JArray? then ai.titles.items else [],
        if ai.skills.JArray? then ai.skills.items else [],
        ai.experience))
  }

  /** The message recorded for a 400 response. */
  lemma ServerError400()
    ensures FailureMessage(NotOk(400)) == "Server error: 400"
  {
    assert NatToString(4) == "4";
    assert NatToString(40) == NatToString(4) + [Digit(0)] == "40";
    assert NatToString(400) == NatToString(40) + [Digit(0)] == "400";
    assert "Server error: " + "400" == "Server error: 400";
  }

  /** The store posts `resume` while the route reads `resumeUrl`: whatever the
      services do, the route answers 400, and the store ends up with the error
      `Server error: 400`, its old jobs and not loading. */
  lemma StoreRequestAlwaysRejected(s: State, resume: ProcessResume.FormValue, env: ProcessResume.Services)
    ensures ProcessResume.Post(FetchRequest(resume), env) == ProcessResume.Failure(400, ProcessResume.NoUrl)
    ensures var t := FetchJobs(s, ResponseOutcome(ProcessResume.Post(FetchRequest(resume), env)));
      t.error == Some("Server error: 400") && t.jobs == s.jobs && !t.loading
  {
    assert ProcessResume.ResumeUrl(FetchRequest(resume)) == Ok("");
    ServerError400();
  }
}
