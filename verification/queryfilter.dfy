/**
 The PostgREST filter the resume route builds from the analysis: one
 case-insensitive title condition per suggested title and one array-overlap
 condition on `required_skills`. Only the string is modelled, not what the
 database does with it.
 */
module QueryFilter {
  import opened Wrappers
  import opened Text
  import opened JsonValues

  /** `title.ilike.%${title.trim()}%`; a title that is not a string has no
      `trim` method, so the call throws a `TypeError`. */
  function TitleCondition(title: Json): (r: Result<string, string>)
    ensures r.Ok? <==> title.JString?
  {
    match title
    case JString(s) => Ok("title.ilike.%" + Trim(s) + "%")
    case _ => Err("title.trim is not a function")
  }

  /** `titles.map(TitleCondition)`, which throws at the first title that is not a string. */
  function TitleConditions(titles: seq<Json>): (r: Result<seq<string>, string>)
    ensures r.Ok? <==> forall i :: 0 <= i < |titles| ==> titles[i].JString?
    ensures r.Ok? ==> (|r.value| == |titles| &&
                       forall i :: 0 <= i < |titles| ==> Ok(r.value[i]) == TitleCondition(titles[i]))
    ensures r.Err? ==> r.error == "title.trim is not a function"
  {
    if forall i :: 0 <= i < |titles| ==> titles[i].JString? then
      Ok(seq(|titles|, i requires 0 <= i < |titles| => TitleCondition(titles[i]).value))
    else Err("title.trim is not a function")
  }

  /** The title group `(c1 or c2 or ...)`. */
  function TitleGroup(conditions: seq<string>): string {
    "(" + Join(conditions, " or ") + ")"
  }

  /** The skill group `required_skills.ov.{s1,s2,...}`, each skill as `String(s)`. */
  function SkillGroup(skills: seq<Json>): string {
    "required_skills.ov.{" + Join(seq(|skills|, i requires 0 <= i < |skills| => ToJsString(skills[i])), ",") + "}"
  }

  /** The argument of `query.or(...)`, or `None` when the route adds no filter;
      `Err` when a title cannot be trimmed. */
  function BuildFilter(titles: seq<Json>, skills: seq<Json>): (r: Result<Option<string>, string>)
    ensures r.Err? <==> exists t :: t in titles && Truthy(Some(t)) && !t.JString?
    ensures r.Ok? ==> (r.value.None? <==> Truthies(titles) == [] && Truthies(skills) == [])
  {
    var ts := Truthies(titles);
    var ss := Truthies(skills);
    assert (exists t :: t in titles && Truthy(Some(t)) && !t.JString?) <==>
           (exists i :: 0 <= i < |ts| && !ts[i].JString?);
    match TitleConditions(ts)
    case Err(e) => Err(e)
    case Ok(conditions) =>
      if |conditions| == 0 && |ss| == 0 then Ok(None)
      else
        var groups := (if |conditions| > 0 then [TitleGroup(conditions)] else [])
                    + (if |ss| > 0 then [SkillGroup(ss)] else []);
        Ok(Some(Join(groups, ",")))
  }

  /** Where each group goes: the title group first, then the skill group,
      separated by a comma, and each group present exactly when its list has a
      truthy element. */
  lemma FilterLayout(titles: seq<Json>, skills: seq<Json>, conditions: seq<string>)
    requires TitleConditions(Truthies(titles)) == Ok(conditions)
    ensures |conditions| == |Truthies(titles)|
    ensures |conditions| > 0 && |Truthies(skills)| > 0 ==>
      BuildFilter(titles, skills) == Ok(Some(TitleGroup(conditions) + "," + SkillGroup(Truthies(skills))))
    ensures |conditions| > 0 && |Truthies(skills)| == 0 ==>
      BuildFilter(titles, skills) == Ok(Some(TitleGroup(conditions)))
    ensures |conditions| == 0 && |Truthies(skills)| > 0 ==>
      BuildFilter(titles, skills) == Ok(Some(SkillGroup(Truthies(skills))))
  {
    var ss := Truthies(skills);
    var r := BuildFilter(titles, skills);
    if |conditions| > 0 && |ss| > 0 {
      assert r == Ok(Some(Join([TitleGroup(conditions), SkillGroup(ss)], ",")));
      assert Join([TitleGroup(conditions), SkillGroup(ss)], ",") == TitleGroup(conditions) + "," + Join([SkillGroup(ss)], ",");
    } else if |conditions| > 0 {
      assert r == Ok(Some(Join([TitleGroup(conditions)], ",")));
    } else if |ss| > 0 {
      assert r == Ok(Some(Join([SkillGroup(ss)], ",")));
    }
  }

  /** Empty titles are dropped before trimming, so a whitespace-only title
      survives as a condition matching every title. */
  lemma BlankTitleMatchesEverything()
    ensures BuildFilter([JString(""), JString("  ")], []) == Ok(Some("(title.ilike.%%)"))
  {
    var titles := [JString(""), JString("  ")];
    var conditions := ["title.ilike.%%"];
    BlankTitleConditions();
    BlankTitleGroup();
    assert |Truthies([])| == 0;
    FilterLayout(titles, [], conditions);
  }

  /** The group of the single empty-pattern condition. */
  lemma BlankTitleGroup()
    ensures TitleGroup(["title.ilike.%%"]) == "(title.ilike.%%)"
  {
    assert Join(["title.ilike.%%"], " or ") == "title.ilike.%%";
  }

  /** The empty title is dropped and the blank one trims to the empty pattern. */
  lemma BlankTitleConditions()
    ensures TitleConditions(Truthies([JString(""), JString("  ")])) == Ok(["title.ilike.%%"])
  {
    var titles := [JString(""), JString("  ")];
    assert Truthies(titles) == [JString("  ")] by {
      assert titles[1..] == [JString("  ")];
    }
    var tc := TitleConditions([JString("  ")]);
    assert tc.Ok? && |tc.value| == 1;
    assert Ok(tc.value[0]) == TitleCondition(JString("  "));
    BlankTitleCondition();
    assert tc.value == [tc.value[0]];
  }

  /** A whitespace-only title trims to the empty pattern. */
  lemma BlankTitleCondition()
    ensures TitleCondition(JString("  ")) == Ok("title.ilike.%%")
  {
    assert IsBlank("  ");
    TrimSpec("  ");
    assert "title.ilike.%" + "" + "%" == "title.ilike.%%";
  }
}
