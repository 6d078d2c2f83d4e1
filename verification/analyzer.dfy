/**
 The resume analyzer of `src/lib/openrouter.ts`: it sends the (truncated)
 resume text to a chat-completion endpoint, parses the JSON the model answers
 with, and normalises it to `{titles, skills, experience}`. Every failure on
 the way is caught and replaced by the all-empty result.

 The endpoint is the oracle `send` (it sees the user message, the only part of
 the request body that depends on the input) and `JSON.parse` of the message
 content is the oracle `parse`.
 */
module Analyzer {
  import opened Wrappers
  import opened Text
  import opened JsonValues

  /** Characters of resume text sent to the model. */
  const MaxResumeChars: nat := 15000
  /** Titles kept from the model's answer. */
  const MaxTitles: nat := 5
  /** Skills kept from the model's answer. */
  const MaxSkills: nat := 10

  /** The normalised analysis. Elements are whatever JSON the model put in its arrays. */
  datatype Insights = Insights(titles: seq<Json>, skills: seq<Json>, experience: Json)

  /** `{ titles: [], skills: [], experience: "" }`, returned whenever anything fails. */
  const Empty: Insights := Insights([], [], JString(""))

  /** What the completion endpoint does with one request. */
  datatype Reply =
    | Rejected(message: string)               // `fetch` itself rejected
    | Replied(ok: bool, body: Option<Json>)   // `body` is `response.json()`, `None` when that throws

  /** Shape every result of `AnalyzeResume` has. */
  predicate WellFormed(r: Insights) {
    && |r.titles| <= MaxTitles
    && |r.skills| <= MaxSkills
    && (Truthy(Some(r.experience)) || r.experience == JString(""))
  }

  /** The user message: the first min(n, 15000) characters of the resume text. */
  function UserMessage(resumeText: string): (m: string)
    ensures |m| == Min(|resumeText|, MaxResumeChars)
    ensures m == resumeText[..|m|]
  {
    Take(resumeText, MaxResumeChars)
  }

  /** `Array.isArray(v) ? v.slice(0, n) : []`. */
  function ArrayPrefix(v: Option<Json>, n: nat): (r: seq<Json>)
    ensures v.Some? && v.value.JArray? ==>
      |r| == Min(|v.value.items|, n) && r == v.value.items[..|r|]
    ensures !(v.Some? && v.value.JArray?) ==> r == []
  {
    match v
    case Some(JArray(items)) => Take(items, n)
    case _ => []
  }

  /** The value of `key` in the parsed object, `undefined` (`None`) when absent
      or when `result` is not an object. */
  function Field(result: Json, key: string): Option<Json> {
    if result.JObject? && key in result.fields then Some(result.fields[key]) else None
  }

  /** The normalisation of the parsed answer; `Err` when reading a property of
      `null` throws. */
  function Normalise(result: Json): (r: Result<Insights, string>)
    ensures r.Err? <==> result.JNull?
    ensures r.Ok? ==> WellFormed(r.value)
    ensures r.Ok? ==> match Field(result, "titles")
                      case Some(JArray(ts)) => |r.value.titles| == Min(|ts|, MaxTitles) &&
                                               r.value.titles == ts[..|r.value.titles|]
                      case _ => r.value.titles == []
    ensures r.Ok? ==> match Field(result, "skills")
                      case Some(JArray(ss)) => |r.value.skills| == Min(|ss|, MaxSkills) &&
                                               r.value.skills == ss[..|r.value.skills|]
                      case _ => r.value.skills == []
    ensures r.Ok? ==> r.value.experience ==
                      if Truthy(Field(result, "experience")) then Field(result, "experience").value
                      else JString("")
    ensures !result.JNull? && !result.JObject? ==> r == Ok(Empty)
  {
    if result.JNull? then Err("Cannot read properties of null (reading 'titles')")
    else
      Ok(Insights(
        ArrayPrefix(Field(result, "titles"), MaxTitles),
        ArrayPrefix(Field(result, "skills"), MaxSkills),
        OrElse(Field(result, "experience"), JString(""))))
  }

  /** The normalised result as the JSON object the function returns. */
  function ToJson(r: Insights): Json {
    JObject(map["titles" := JArray(r.titles), "skills" := JArray(r.skills), "experience" := r.experience])
  }

  /** `data.choices[0].message.content`, throwing on any missing step. */
  function MessageContent(data: Json): (r: Result<Option<Json>, string>)
    ensures r.Ok? <==>
      && data.JObject? && "choices" in data.fields
      && First(data.fields["choices"]).Ok? && First(data.fields["choices"]).value.Some?
      && First(data.fields["choices"]).value.value.JObject?
      && "message" in First(data.fields["choices"]).value.value.fields
      && !First(data.fields["choices"]).value.value.fields["message"].JNull?
    ensures !data.JObject? ==> r.Err?
    ensures data.JObject? && "choices" !in data.fields ==> r.Err?
    ensures data.JObject? && "choices" in data.fields && data.fields["choices"] == JArray([]) ==> r.Err?
    ensures data.JObject? && "choices" in data.fields && data.fields["choices"].JArray? &&
            |data.fields["choices"].items| > 0 ==>
      var choice := data.fields["choices"].items[0];
      && (choice.JNull? ==> r.Err?)
      && (choice.JObject? && "message" !in choice.fields ==> r.Err?)
      && (choice.JObject? && "message" in choice.fields && choice.fields["message"].JNull? ==> r.Err?)
      && (choice.JObject? && "message" in choice.fields && choice.fields["message"].JObject? ==>
            r == Ok(Field(choice.fields["message"], "content")))
  {
    match Get(data, "choices")
    case Err(e) => Err(e)
    case Ok(choices) =>
      match choices
      case None => Err("Cannot read properties of undefined (reading '0')")
      case Some(cs) =>
        match First(cs)
        case Err(e) => Err(e)
        case Ok(choice) =>
          match Read(choice, "message")
          case Err(e) => Err(e)
          case Ok(message) => Read(message, "content")
  }

  /** The string `JSON.parse` receives: `String(content)`, `"undefined"` when missing. */
  function ContentText(content: Option<Json>): string {
    match content
    case None => "undefined"
    case Some(j) => ToJsString(j)
  }

  /** `analyzeResume(resumeText)`: never fails; every error yields `Empty`. */
  function AnalyzeResume(resumeText: string, send: string -> Reply, parse: string -> Option<Json>): (r: Insights)
    ensures WellFormed(r)
    ensures send(UserMessage(resumeText)).Rejected? ==> r == Empty
    ensures send(UserMessage(resumeText)).Replied? && !send(UserMessage(resumeText)).ok ==> r == Empty
    ensures send(UserMessage(resumeText)) == Replied(true, None) ==> r == Empty
    ensures var reply := send(UserMessage(resumeText));
      reply.Replied? && reply.ok && reply.body.Some? && MessageContent(reply.body.value).Err? ==> r == Empty
  {
    match send(UserMessage(resumeText))
    case Rejected(_) => Empty
    case Replied(ok, body) =>
      if !ok then Empty
      else match body
        case None => Empty
        case Some(data) =>
          match MessageContent(data)
          case Err(_) => Empty
          case Ok(content) =>
            match parse(ContentText(content))
            case None => Empty
            case Some(result) =>
              match Normalise(result)
              case Err(_) => Empty
              case Ok(insights) => insights
  }

  /** The whole answer path: an ok reply whose message content parses to a
      non-null value yields exactly the normalisation of that value, and a
      parse failure or a parsed `null` yields `Empty`. */
  lemma AnalyzeOutcome(resumeText: string, send: string -> Reply, parse: string -> Option<Json>, data: Json, content: Option<Json>)
    requires send(UserMessage(resumeText)) == Replied(true, Some(data))
    requires MessageContent(data) == Ok(content)
    ensures parse(ContentText(content)).None? ==> AnalyzeResume(resumeText, send, parse) == Empty
    ensures parse(ContentText(content)) == Some(JNull) ==> AnalyzeResume(resumeText, send, parse) == Empty
    ensures parse(ContentText(content)).Some? && !parse(ContentText(content)).value.JNull? ==>
      Ok(AnalyzeResume(resumeText, send, parse)) == Normalise(parse(ContentText(content)).value)
  {
  }

  /** A normalised result normalises to itself. */
  lemma NormaliseFixesWellFormed(r: Insights)
    requires WellFormed(r)
    ensures Normalise(ToJson(r)) == Ok(r)
  {
    var j := ToJson(r);
    assert Field(j, "titles") == Some(JArray(r.titles));
    assert Field(j, "skills") == Some(JArray(r.skills));
    assert Field(j, "experience") == Some(r.experience);
  }

  /** Normalisation is idempotent. */
  lemma NormaliseIdempotent(result: Json)
    requires !result.JNull?
    ensures Normalise(result).Ok?
    ensures Normalise(ToJson(Normalise(result).value)) == Normalise(result)
  {
    NormaliseFixesWellFormed(Normalise(result).value);
  }

  /** Only the first 15000 characters of the resume can influence the analysis. */
  lemma OnlyPrefixMatters(a: string, b: string, send: string -> Reply, parse: string -> Option<Json>)
    requires |a| >= MaxResumeChars && |b| >= MaxResumeChars
    requires a[..MaxResumeChars] == b[..MaxResumeChars]
    ensures AnalyzeResume(a, send, parse) == AnalyzeResume(b, send, parse)
  {
    assert UserMessage(a) == UserMessage(b);
  }
}
