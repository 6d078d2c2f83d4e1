/**
 The route composed with the analyzer it actually calls. `analyzeResume`
 returns only `{titles, skills, experience}`, so the route always sees array
 `titles` and `skills` and never a `bestMatches` list.
 */
module Pipeline {
  import opened Wrappers
  import opened JsonValues
  import opened Analyzer
  import opened Ranking
  import opened QueryFilter
  import opened ProcessResume

  /** The object `analyzeResume` returns, as the route reads it. */
  function FromInsights(i: Insights): (a: AiData)
    ensures ShapeOk(a) && a.bestMatches.None?
    ensures a.titles.items == i.titles && a.skills.items == i.skills && a.experience == i.experience
  {
    AiData(JArray(i.titles), JArray(i.skills), i.experience, None)
  }

  /** The services with the real analyzer in place of the `analyze` oracle. */
  function Live(env: Services, send: string -> Reply, parse: string -> Option<Json>): (e: Services)
    ensures forall text :: e.analyze(text) == FromInsights(AnalyzeResume(text, send, parse))
    ensures e.download == env.download && e.extractors == env.extractors
    ensures e.corpus == env.corpus && e.query == env.query
  {
    env.(analyze := (text: string) => FromInsights(AnalyzeResume(text, send, parse)))
  }

  /** Without scores every relevance is 0, so the stable sort keeps the query order. */
  lemma {:induction false} RankWithoutMatches(jobs: seq<Job>)
    ensures Rank(jobs, None) == seq(|jobs|, i requires 0 <= i < |jobs| => RankedJob(jobs[i], 0, 0))
  {
    var e := EnrichAll(jobs, None);
    assert e == seq(|jobs|, i requires 0 <= i < |jobs| => RankedJob(jobs[i], 0, 0));
    StableSortUnique(e, e);
  }

  /** Whenever the analysis is an `analyzeResume` result, the shape check
      never fires, and a successful response lists the queried jobs in query
      order, each with relevance 0 and no matched skills, and reports a top
      relevance of 0. */
  lemma NormalisedAnalysisRun(text: string, env: Services, ins: Insights)
    requires env.corpus.Ok? && env.analyze(text) == FromInsights(ins)
    ensures var r := AnalyseAndQuery(text, env);
      && r != Failure(500, InvalidAi)
      && (r.Success? ==>
            && r.aiInsights == FromInsights(ins)
            && BuildFilter(ins.titles, ins.skills).Ok?
            && var matched := env.query(BuildFilter(ins.titles, ins.skills).value).value;
               && r.jobs == seq(|matched|, i requires 0 <= i < |matched| => RankedJob(matched[i], 0, 0))
               && r.summary.topRelevance == 0)
  {
    var ai := env.analyze(text);
    CheckOrderAfterExtraction(text, env);
    assert InvalidAi != QueryFailed && InvalidAi != "title.trim is not a function";
    match BuildFilter(ai.titles.items, ai.skills.items)
    case Err(_) =>
    case Ok(filter) =>
      match env.query(filter)
      case Err(_) =>
      case Ok(matched) =>
        RankWithoutMatches(matched);
  }

  /** The route with the real analyzer: `NormalisedAnalysisRun` applies to
      every resume text. */
  lemma LiveAnalysis(text: string, env: Services, send: string -> Reply, parse: string -> Option<Json>)
    requires env.corpus.Ok?
    ensures var live := Live(env, send, parse);
      var ins := AnalyzeResume(text, send, parse);
      var r := AnalyseAndQuery(text, live);
      && r != Failure(500, InvalidAi)
      && (r.Success? ==> r.aiInsights == FromInsights(ins) && r.summary.topRelevance == 0 &&
                         forall j :: j in r.jobs ==> j.relevance == 0 && j.matchedSkills == 0)
  {
    var live := Live(env, send, parse);
    NormalisedAnalysisRun(text, live, AnalyzeResume(text, send, parse));
  }
}
