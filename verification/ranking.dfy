/**
 The enrichment, sort and summary step at the end of the resume route: each
 queried job gets the relevance and matched-skill count of the first
 `bestMatches` entry with its id, the jobs are sorted by non-increasing
 relevance with `Array.prototype.sort` (stable), and a summary is computed.
 */
module Ranking {
  import opened Wrappers
  import opened JsonValues

  /** A row of the `jobs` table: its id and its other columns. */
  datatype Job = Job(id: string, fields: map<string, Json>)

  /** One entry of the analysis's `bestMatches` list. */
  datatype BestMatch = BestMatch(jobId: string, matchScore: Option<int>, matchingSkills: Option<seq<Json>>)

  /** `{ ...job, relevance, matchedSkills }`. */
  datatype RankedJob = RankedJob(job: Job, relevance: int, matchedSkills: nat)

  /** The `summary` object of the response. */
  datatype Summary = Summary(totalJobs: nat, topRelevance: int, extractedTextLength: nat)

  /** Index of the first entry whose `jobId` is `id` (`Array.prototype.find`). */
  function FindMatch(matches: seq<BestMatch>, id: string): (r: Option<nat>)
    ensures r.Some? ==> r.value < |matches| && matches[r.value].jobId == id
    ensures r.Some? ==> forall k :: 0 <= k < r.value ==> matches[k].jobId != id
    ensures r.None? <==> forall k :: 0 <= k < |matches| ==> matches[k].jobId != id
  {
    if |matches| == 0 then None
    else if matches[0].jobId == id then Some(0)
    else match FindMatch(matches[1..], id)
      case None => None
      case Some(k) => Some(k + 1)
  }

  /** The entry `bestMatches?.find(m => m.jobId === id)`, if any. */
  function MatchFor(bestMatches: Option<seq<BestMatch>>, id: string): (r: Option<BestMatch>)
    ensures r.Some? ==> bestMatches.Some? && r.value in bestMatches.value && r.value.jobId == id
    ensures r.None? <==> bestMatches.None? || forall m :: m in bestMatches.value ==> m.jobId != id
    ensures r.Some? ==> exists k :: 0 <= k < |bestMatches.value| && bestMatches.value[k] == r.value &&
                                    forall j :: 0 <= j < k ==> bestMatches.value[j].jobId != id
  {
    match bestMatches
    case None => None
    case Some(ms) =>
      match FindMatch(ms, id)
      case None => None
      case Some(k) => Some(ms[k])
  }

  /** The job with its relevance (`match?.matchScore || 0`) and its number of
      matched skills (`match?.matchingSkills?.length || 0`) attached. */
  function Enrich(job: Job, bestMatches: Option<seq<BestMatch>>): (r: RankedJob)
    ensures r.job == job
    ensures MatchFor(bestMatches, job.id).None? ==> r.relevance == 0 && r.matchedSkills == 0
    ensures MatchFor(bestMatches, job.id).Some? ==>
      r.relevance == MatchFor(bestMatches, job.id).value.matchScore.GetOr(0)
    ensures r.matchedSkills ==
      if MatchFor(bestMatches, job.id).Some? && MatchFor(bestMatches, job.id).value.matchingSkills.Some?
      then |MatchFor(bestMatches, job.id).value.matchingSkills.value| else 0
  {
    match MatchFor(bestMatches, job.id)
    case None => RankedJob(job, 0, 0)
    case Some(m) =>
      RankedJob(job, m.matchScore.GetOr(0), if m.matchingSkills.Some? then |m.matchingSkills.value| else 0)
  }

  /** `jobs.map(...)`: every job enriched, in query order. */
  function EnrichAll(jobs: seq<Job>, bestMatches: Option<seq<BestMatch>>): (r: seq<RankedJob>)
    ensures |r| == |jobs|
    ensures forall i :: 0 <= i < |jobs| ==> r[i] == Enrich(jobs[i], bestMatches)
  {
    seq(|jobs|, i requires 0 <= i < |jobs| => Enrich(jobs[i], bestMatches))
  }

  /** Non-increasing by relevance. */
  ghost predicate Sorted(s: seq<RankedJob>) {
    forall i, j :: 0 <= i < j < |s| ==> s[i].relevance >= s[j].relevance
  }

  /** The jobs of relevance `v`, in their order in `s`. */
  function WithRelevance(s: seq<RankedJob>, v: int): (r: seq<RankedJob>)
    ensures |r| <= |s|
    ensures forall x :: x in r <==> x in s && x.relevance == v
  {
    if |s| == 0 then []
    else if s[0].relevance == v then [s[0]] + WithRelevance(s[1..], v)
    else WithRelevance(s[1..], v)
  }

  /** Inserts `x`, which came before every element of `t`, into the sorted `t`:
      after the strictly more relevant jobs and before the rest. */
  function Insert(x: RankedJob, t: seq<RankedJob>): (r: seq<RankedJob>)
    requires Sorted(t)
    ensures Sorted(r)
    ensures multiset(r) == multiset(t) + multiset{x}
  {
    if |t| == 0 || x.relevance >= t[0].relevance then
      SortedCons(x, t);
      [x] + t
    else
      var rest := Insert(x, t[1..]);
      InsertBehind(x, t, rest);
      [t[0]] + rest
  }

  /** Putting the head of `t` back in front of `x` inserted into the tail of `t`
      gives a sorted sequence holding `t` and `x`. */
  lemma InsertBehind(x: RankedJob, t: seq<RankedJob>, rest: seq<RankedJob>)
    requires Sorted(t) && |t| > 0 && x.relevance < t[0].relevance
    requires Sorted(rest) && multiset(rest) == multiset(t[1..]) + multiset{x}
    ensures Sorted([t[0]] + rest)
    ensures multiset([t[0]] + rest) == multiset(t) + multiset{x}
  {
    assert t == [t[0]] + t[1..];
    forall y | y in rest ensures t[0].relevance >= y.relevance {
      assert y in multiset(rest);
    }
    SortedCons(t[0], rest);
  }

  /** Prepending a job at least as relevant as all others keeps a sequence sorted. */
  lemma SortedCons(a: RankedJob, rest: seq<RankedJob>)
    requires Sorted(rest)
    requires forall y :: y in rest ==> a.relevance >= y.relevance
    ensures Sorted([a] + rest)
  {
    var r := [a] + rest;
    forall i, j | 0 <= i < j < |r| ensures r[i].relevance >= r[j].relevance {
      assert r[j] == rest[j - 1];
      if i > 0 {
        assert r[i] == rest[i - 1];
      }
    }
  }

  /** Inserting `x` adds it in front of the jobs of its own relevance and
      leaves the other relevance classes as they were. */
  lemma {:induction false} InsertClass(x: RankedJob, t: seq<RankedJob>, v: int)
    requires Sorted(t)
    ensures WithRelevance(Insert(x, t), v) ==
      if x.relevance == v then [x] + WithRelevance(t, v) else WithRelevance(t, v)
  {
    if |t| == 0 || x.relevance >= t[0].relevance {
      assert ([x] + t)[1..] == t;
    } else {
      var rest := Insert(x, t[1..]);
      InsertClass(x, t[1..], v);
      assert ([t[0]] + rest)[1..] == rest;
    }
  }

  /** `.sort((a, b) => b.relevance - a.relevance)`: a stable sort by
      non-increasing relevance. */
  function SortByRelevance(s: seq<RankedJob>): (r: seq<RankedJob>)
    ensures Sorted(r)
    ensures multiset(r) == multiset(s)
  {
    if |s| == 0 then []
    else
      assert s == [s[0]] + s[1..];
      Insert(s[0], SortByRelevance(s[1..]))
  }

  /** The sort is stable: the jobs of each relevance keep their query order. */
  lemma {:induction false} SortStable(s: seq<RankedJob>, v: int)
    ensures WithRelevance(SortByRelevance(s), v) == WithRelevance(s, v)
  {
    if |s| > 0 {
      SortStable(s[1..], v);
      InsertClass(s[0], SortByRelevance(s[1..]), v);
    }
  }

  /** The `jobs` of the response: the queried jobs, enriched and sorted. */
  function Rank(jobs: seq<Job>, bestMatches: Option<seq<BestMatch>>): (r: seq<RankedJob>)
    ensures Sorted(r)
    ensures |r| == |jobs|
    ensures multiset(r) == multiset(EnrichAll(jobs, bestMatches))
    ensures forall x :: x in r ==> x == Enrich(x.job, bestMatches) && x.job in jobs
    ensures forall v :: WithRelevance(r, v) == WithRelevance(EnrichAll(jobs, bestMatches), v)
  {
    var e := EnrichAll(jobs, bestMatches);
    var r := SortByRelevance(e);
    assert |r| == |multiset(r)| == |multiset(e)| == |e|;
    forall x | x in r ensures x == Enrich(x.job, bestMatches) && x.job in jobs {
      assert x in multiset(e);
      var i :| 0 <= i < |e| && e[i] == x;
    }
    forall v ensures WithRelevance(r, v) == WithRelevance(e, v) {
      SortStable(e, v);
    }
    r
  }

  /** A sorted sequence starts with one of its most relevant jobs. */
  lemma HeadIsMax(s: seq<RankedJob>)
    requires Sorted(s) && |s| > 0
    ensures forall x :: x in s ==> x.relevance <= s[0].relevance
  {
  }

  /** Stability pins the result down: every sorted sequence with the same jobs
      of each relevance, in the same order, is the output of `SortByRelevance`. */
  lemma StableSortUnique(s: seq<RankedJob>, u: seq<RankedJob>)
    requires Sorted(u)
    requires forall v :: WithRelevance(u, v) == WithRelevance(s, v)
    ensures u == SortByRelevance(s)
  {
    forall v ensures WithRelevance(u, v) == WithRelevance(SortByRelevance(s), v) {
      SortStable(s, v);
    }
    SortedSameClassesEqual(u, SortByRelevance(s));
  }

  /** Two sorted sequences with the same jobs of each relevance, in the same
      order, are equal. */
  lemma {:induction false} SortedSameClassesEqual(u: seq<RankedJob>, w: seq<RankedJob>)
    requires Sorted(u) && Sorted(w)
    requires forall v :: WithRelevance(u, v) == WithRelevance(w, v)
    ensures u == w
    decreases |u|
  {
    SameClassesSameEmptiness(u, w);
    if |u| == 0 {
    } else {
      SameHeads(u, w);
      forall v ensures WithRelevance(u[1..], v) == WithRelevance(w[1..], v) {
        SameTailClasses(u, w, v);
      }
      SortedSameClassesEqual(u[1..], w[1..]);
      assert u == [u[0]] + u[1..] && w == [w[0]] + w[1..];
    }
  }

  /** Sequences with the same relevance classes are both empty or both not. */
  lemma SameClassesSameEmptiness(u: seq<RankedJob>, w: seq<RankedJob>)
    requires forall v :: WithRelevance(u, v) == WithRelevance(w, v)
    ensures |u| == 0 <==> |w| == 0
  {
    if |u| > 0 {
      assert u[0] in WithRelevance(w, u[0].relevance);
    }
    if |w| > 0 {
      assert w[0] in WithRelevance(u, w[0].relevance);
    }
  }

  /** Two non-empty sorted sequences with the same relevance classes start
      with the same job. */
  lemma SameHeads(u: seq<RankedJob>, w: seq<RankedJob>)
    requires Sorted(u) && Sorted(w) && |u| > 0 && |w| > 0
    requires forall v :: WithRelevance(u, v) == WithRelevance(w, v)
    ensures u[0] == w[0]
  {
    var m := u[0].relevance;
    assert u[0] in WithRelevance(u, m);
    assert u[0] in w;
    assert w[0] in WithRelevance(w, w[0].relevance);
    assert w[0] in u;
    assert m == w[0].relevance;
    assert WithRelevance(u, m) == WithRelevance(w, m);
    assert u[0] == WithRelevance(u, m)[0] == WithRelevance(w, m)[0] == w[0];
  }

  /** Dropping equal heads keeps the relevance classes equal. */
  lemma SameTailClasses(u: seq<RankedJob>, w: seq<RankedJob>, v: int)
    requires |u| > 0 && |w| > 0 && u[0] == w[0]
    requires WithRelevance(u, v) == WithRelevance(w, v)
    ensures WithRelevance(u[1..], v) == WithRelevance(w[1..], v)
  {
    if u[0].relevance == v {
      assert WithRelevance(u[1..], v) == WithRelevance(u, v)[1..];
      assert WithRelevance(w[1..], v) == WithRelevance(w, v)[1..];
    }
  }

  /** The response summary. */
  function Summarise(jobs: seq<RankedJob>, extractedText: string): (r: Summary)
    ensures r.totalJobs == |jobs|
    ensures r.extractedTextLength == |extractedText|
    ensures |jobs| == 0 ==> r.topRelevance == 0
    ensures |jobs| > 0 && Sorted(jobs) ==>
      (exists x :: x in jobs && x.relevance == r.topRelevance) &&
      (forall x :: x in jobs ==> x.relevance <= r.topRelevance)
  {
    if |jobs| == 0 then Summary(0, 0, |extractedText|)
    else
      assert jobs[0] in jobs;
      assert Sorted(jobs) ==> forall x :: x in jobs ==> x.relevance <= jobs[0].relevance by {
        if Sorted(jobs) {
          HeadIsMax(jobs);
        }
      }
      Summary(|jobs|, jobs[0].relevance, |extractedText|)
  }
}
