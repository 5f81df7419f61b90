/**
 * `GET /api/candidates`: the WHERE-clause and parameter builder, the experience-label map, the ORDER BY
 * choice and the pagination metadata. SQL text is abstracted to one constructor per condition, carrying the
 * number `n` of its first `$n` placeholder.
 */
module CandidatesRoute {
  import opened Common
  import opened Strings
  import ApiUtils

  /** A bound SQL parameter; `NaN` is what `Number.parseInt` yields without digits. */
  datatype Param = Text(s: string) | Number(n: int) | NaN | JsonList(items: seq<string>)

  /** One entry of `whereConditions`. */
  datatype Condition =
    | PublicResume                       // r.is_public = true
    | ActiveUser                         // u.is_active = true
    | TextSearch(at: nat)                // full-text $at, ILIKE $at+1 on names and title
    | LocationIs(at: nat)                // r.location = $at OR up.location = $at
    | HasSkill(at: nat)                  // r.skills @> $at
    | ExperienceFrom(at: nat)            // r.experience_years >= $at
    | ExperienceBetween(at: nat)         // >= $at AND <= $at+1
    | SalaryMaxAtLeast(at: nat)          // r.salary_expectation_max >= $at
    | SalaryMinAtMost(at: nat)           // r.salary_expectation_min <= $at
    | Available                          // r.availability = 'available'
    | EmailVerified                      // u.email_verified = true

  /** The placeholder numbers a condition mentions. */
  function Placeholders(c: Condition): seq<nat> {
    match c
    case TextSearch(i) => [i, i + 1]
    case ExperienceBetween(i) => [i, i + 1]
    case LocationIs(i) => [i]
    case HasSkill(i) => [i]
    case ExperienceFrom(i) => [i]
    case SalaryMaxAtLeast(i) => [i]
    case SalaryMinAtMost(i) => [i]
    case _ => []
  }

  /** The query string values the route reads; `None` where absent. */
  datatype CandidateQuery = CandidateQuery(
    q: Option<string>, location: Option<string>, skill: Option<string>, experience: Option<string>,
    education: Option<string>, salaryMin: Option<string>, salaryMax: Option<string>,
    available: Option<string>, verified: Option<string>, premium: Option<string>, sortBy: Option<string>)

  /** The filter values after the route's defaults (`|| ""`, `|| "0"`, `=== "true"`, ...). */
  datatype Filters = Filters(
    search: string, location: string, skill: string, experience: string,
    salaryMin: Option<int>, salaryMax: Option<int>, availableOnly: bool, verifiedOnly: bool, premiumOnly: bool,
    sortBy: string)

  function FiltersOf(query: CandidateQuery): (f: Filters)
    ensures query.location.None? ==> f.location == ""
    ensures query.sortBy.None? ==> f.sortBy == "relevance"
    ensures f.premiumOnly <==> query.premium == Some("true")
  {
    Filters(
      ApiUtils.OrDefault(query.q, ""), ApiUtils.OrDefault(query.location, ""), ApiUtils.OrDefault(query.skill, ""),
      ApiUtils.OrDefault(query.experience, ""),
      ParseInt(ApiUtils.OrDefault(query.salaryMin, "0")), ParseInt(ApiUtils.OrDefault(query.salaryMax, "999999")),
      query.available == Some("true"), query.verified == Some("true"), query.premium == Some("true"),
      ApiUtils.OrDefault(query.sortBy, "relevance"))
  }

  /** A select filter that is set and not `"all"`. */
  predicate Selected(v: string) { v != "" && v != "all" }

  /** `expMap`: experience labels to year ranges. */
  function ExperienceRange(experience: string): (r: Option<string>)
    ensures r.Some? <==> experience in {"1-2 года", "2-3 года", "3-4 года", "4-5 лет", "5+ лет"}
  {
    if experience == "1-2 года" then Some("1-2")
    else if experience == "2-3 года" then Some("2-3")
    else if experience == "3-4 года" then Some("3-4")
    else if experience == "4-5 лет" then Some("4-5")
    else if experience == "5+ лет" then Some("5+")
    else None
  }

  /** `const [min, max] = range.split("-")`: `max` is `None` (undefined) when there is no dash. */
  function RangeBounds(range: string): (string, Option<string>) {
    var pieces := Split(range, '-');
    (pieces[0], if |pieces| > 1 then Some(pieces[1]) else None)
  }

  /** `Number.parseInt` of an optional string, `undefined` giving `NaN`. */
  function IntParam(s: Option<string>): Param {
    if s.None? then NaN
    else match ParseInt(s.value)
         case Some(n) => Number(n)
         case None => NaN
  }

  /** The open-ended `>=` branch is never taken: no range of the map splits into a `+` upper bound.
      Every experience therefore yields two bounds, and `5+ лет` binds 5 and `NaN`. */
  lemma {:induction false} NoOpenEndedRange(experience: string)
    requires ExperienceRange(experience).Some?
    ensures RangeBounds(ExperienceRange(experience).value).1 != Some("+")
    ensures experience == "5+ лет" ==>
      RangeBounds("5+").1.None? && IntParam(Some(RangeBounds("5+").0)) == Number(5)
  {
    var range := ExperienceRange(experience).value;
    if range != "5+" {
      SplitRanges(range);
    } else {
      SplitWithoutSeparator("5+", '-');
      assert Split("5+", '-') == ["5+"];
      assert TrimStart("5+") == "5+";
      assert SignStripped("5+") == "5+";
      assert DigitPrefix("5+") == "5" by {
        assert DigitPrefix("5+") == ['5'] + DigitPrefix("+");
      }
      assert DigitsValue("5") == 5;
    }
  }

  /** The two pieces of each two-piece range of the map. */
  lemma SplitRanges(range: string)
    requires range in {"1-2", "2-3", "3-4", "4-5"}
    ensures Split(range, '-') == [range[..1], range[2..]]
  {
    assert range == range[..1] + "-" + range[2..];
    SplitAround(range[..1], '-', range[2..]);
    SplitWithoutSeparator(range[2..], '-');
  }

  /** The parsed lower and upper bound of a mapped experience label. */
  function ExperienceParams(experience: string): Option<(Param, Param)> {
    match ExperienceRange(experience)
    case None => None
    case Some(range) => var b := RangeBounds(range); Some((IntParam(Some(b.0)), IntParam(b.1)))
  }

  /** Each condition's placeholders bind the values the condition compares with. */
  predicate BindsIntended(c: Condition, params: seq<Param>, f: Filters) {
    match c
    case TextSearch(i) =>
      1 <= i < |params| && params[i - 1] == Text(f.search) && params[i] == Text("%" + f.search + "%")
    case LocationIs(i) => 1 <= i <= |params| && params[i - 1] == Text(f.location)
    case HasSkill(i) => 1 <= i <= |params| && params[i - 1] == JsonList([f.skill])
    case ExperienceBetween(i) =>
      1 <= i < |params| && ExperienceParams(f.experience).Some?
      && params[i - 1] == ExperienceParams(f.experience).value.0 && params[i] == ExperienceParams(f.experience).value.1
    case ExperienceFrom(i) =>
      1 <= i <= |params| && ExperienceParams(f.experience).Some? && params[i - 1] == ExperienceParams(f.experience).value.0
    case SalaryMaxAtLeast(i) => 1 <= i <= |params| && f.salaryMin.Some? && params[i - 1] == Number(f.salaryMin.value)
    case SalaryMinAtMost(i) => 1 <= i <= |params| && f.salaryMax.Some? && params[i - 1] == Number(f.salaryMax.value)
    case _ => true
  }

  /** Every condition of `conds` binds its intended values in `params`. */
  predicate WellBound(conds: seq<Condition>, params: seq<Param>, f: Filters) {
    forall k | 0 <= k < |conds| :: BindsIntended(conds[k], params, f)
  }

  /** Appending parameters never disturbs the bindings already made. */
  lemma WellBoundAppend(conds: seq<Condition>, params: seq<Param>, c: Condition, more: seq<Param>, f: Filters)
    requires WellBound(conds, params, f) && BindsIntended(c, params + more, f)
    ensures WellBound(conds + [c], params + more, f)
  {
    forall k | 0 <= k < |conds| ensures BindsIntended(conds[k], params + more, f) {
      assert BindsIntended(conds[k], params, f);
    }
  }

  /** What a condition tests, without its placeholder number. */
  datatype Kind = IsPublic | IsActive | Search | Location | Skill | ExperienceAtLeast | ExperienceRangeKind
                | SalaryAtLeast | SalaryAtMost | AvailableKind | VerifiedKind

  function KindOf(c: Condition): Kind {
    match c
    case PublicResume => IsPublic
    case ActiveUser => IsActive
    case TextSearch(_) => Search
    case LocationIs(_) => Location
    case HasSkill(_) => Skill
    case ExperienceFrom(_) => ExperienceAtLeast
    case ExperienceBetween(_) => ExperienceRangeKind
    case SalaryMaxAtLeast(_) => SalaryAtLeast
    case SalaryMinAtMost(_) => SalaryAtMost
    case Available => AvailableKind
    case EmailVerified => VerifiedKind
  }

  function Kinds(conds: seq<Condition>): (r: seq<Kind>)
    ensures |r| == |conds| && forall k | 0 <= k < |conds| :: r[k] == KindOf(conds[k])
  {
    seq(|conds|, k requires 0 <= k < |conds| => KindOf(conds[k]))
  }

  function SearchKinds(f: Filters): seq<Kind> { if f.search != "" then [Search] else [] }
  function LocationKinds(f: Filters): seq<Kind> { if Selected(f.location) then [Location] else [] }
  function SkillKinds(f: Filters): seq<Kind> { if Selected(f.skill) then [Skill] else [] }
  function SalaryKinds(f: Filters): seq<Kind> {
    (if f.salaryMin.Some? && f.salaryMin.value > 0 then [SalaryAtLeast] else [])
    + (if f.salaryMax.Some? && f.salaryMax.value < 999999 then [SalaryAtMost] else [])
  }
  function FlagKinds(f: Filters): seq<Kind> {
    (if f.availableOnly then [AvailableKind] else []) + (if f.verifiedOnly then [VerifiedKind] else [])
  }

  /** The experience condition: `>=` when the range's upper bound is `+`, a two-sided range otherwise. */
  function ExperienceKinds(f: Filters): seq<Kind> {
    ExperienceKindsOf(f.experience)
  }

  function ExperienceKindsOf(experience: string): seq<Kind> {
    if Selected(experience) && ExperienceRange(experience).Some? then
      if RangeBounds(ExperienceRange(experience).value).1 == Some("+") then [ExperienceAtLeast]
      else [ExperienceRangeKind]
    else []
  }

  /** The filters that are switched on, in the order the route tests them. */
  function ActiveKinds(f: Filters): seq<Kind> {
    [IsPublic, IsActive] + SearchKinds(f) + LocationKinds(f) + SkillKinds(f) + ExperienceKinds(f)
    + SalaryKinds(f) + FlagKinds(f)
  }

  /** Parameters appended after the filters leave the filters' bindings intact. */
  lemma WellBoundExtend(conds: seq<Condition>, params: seq<Param>, more: seq<Param>, f: Filters)
    requires WellBound(conds, params, f)
    ensures WellBound(conds, params + more, f)
  {
    forall k | 0 <= k < |conds| ensures BindsIntended(conds[k], params + more, f) {
      assert BindsIntended(conds[k], params, f);
    }
  }

  /** Number of parameters the filters contribute: two for the search text, two for a range. */
  function ParamCount(f: Filters): nat {
    2 * |SearchKinds(f)| + |LocationKinds(f)| + |SkillKinds(f)|
    + ExperienceParamCount(f.experience) + |SalaryKinds(f)|
  }

  /** The range condition binds two parameters, the `>=` one binds one. */
  function ExperienceParamCount(experience: string): nat {
    var k := ExperienceKindsOf(experience);
    if k == [ExperienceRangeKind] then 2 else |k|
  }

  /** The builder's invariant: parameters and conditions agree, and the next placeholder is the next slot. */
  predicate Built(conds: seq<Condition>, params: seq<Param>, paramIndex: int, f: Filters) {
    paramIndex == |params| + 1 && WellBound(conds, params, f)
  }

  /** Appending a condition together with the parameters it binds keeps the invariant. */
  lemma BuiltAppend(conds: seq<Condition>, params: seq<Param>, c: Condition, more: seq<Param>, f: Filters)
    requires Built(conds, params, |params| + 1, f) && BindsIntended(c, params + more, f)
    ensures Built(conds + [c], params + more, |params + more| + 1, f)
    ensures Kinds(conds + [c]) == Kinds(conds) + [KindOf(c)]
  {
    WellBoundAppend(conds, params, c, more, f);
  }

  method AddSearch(f: Filters, conds: seq<Condition>, params: seq<Param>, paramIndex: int)
    returns (conds': seq<Condition>, params': seq<Param>, paramIndex': int)
    requires Built(conds, params, paramIndex, f)
    ensures Built(conds', params', paramIndex', f)
    ensures Kinds(conds') == Kinds(conds) + SearchKinds(f)
    ensures |params'| == |params| + 2 * |SearchKinds(f)|
  {
    conds', params', paramIndex' := conds, params, paramIndex;
    if f.search != "" {
      BuiltAppend(conds', params', TextSearch(paramIndex'), [Text(f.search), Text("%" + f.search + "%")], f);
      conds' := conds' + [TextSearch(paramIndex')];
      params' := params' + [Text(f.search), Text("%" + f.search + "%")];
      paramIndex' := paramIndex' + 2;
    }
  }

  method AddLocation(f: Filters, conds: seq<Condition>, params: seq<Param>, paramIndex: int)
    returns (conds': seq<Condition>, params': seq<Param>, paramIndex': int)
    requires Built(conds, params, paramIndex, f)
    ensures Built(conds', params', paramIndex', f)
    ensures Kinds(conds') == Kinds(conds) + LocationKinds(f)
    ensures |params'| == |params| + |LocationKinds(f)|
  {
    conds', params', paramIndex' := conds, params, paramIndex;
    if Selected(f.location) {
      BuiltAppend(conds', params', LocationIs(paramIndex'), [Text(f.location)], f);
      conds' := conds' + [LocationIs(paramIndex')];
      params' := params' + [Text(f.location)];
      paramIndex' := paramIndex' + 1;
    }
  }

  method AddSkill(f: Filters, conds: seq<Condition>, params: seq<Param>, paramIndex: int)
    returns (conds': seq<Condition>, params': seq<Param>, paramIndex': int)
    requires Built(conds, params, paramIndex, f)
    ensures Built(conds', params', paramIndex', f)
    ensures Kinds(conds') == Kinds(conds) + SkillKinds(f)
    ensures |params'| == |params| + |SkillKinds(f)|
  {
    conds', params', paramIndex' := conds, params, paramIndex;
    if Selected(f.skill) {
      BuiltAppend(conds', params', HasSkill(paramIndex'), [JsonList([f.skill])], f);
      conds' := conds' + [HasSkill(paramIndex')];
      params' := params' + [JsonList([f.skill])];
      paramIndex' := paramIndex' + 1;
    }
  }

  /** The experience step, including its `>=` branch for an upper bound of `+`, which no label reaches. */
  method AddExperience(f: Filters, conds: seq<Condition>, params: seq<Param>, paramIndex: int)
    returns (conds': seq<Condition>, params': seq<Param>, paramIndex': int)
    requires Built(conds, params, paramIndex, f)
    ensures Built(conds', params', paramIndex', f)
    ensures Kinds(conds') == Kinds(conds) + ExperienceKinds(f)
    ensures |params'| == |params| + (if ExperienceKinds(f) == [ExperienceRangeKind] then 2 else |ExperienceKinds(f)|)
  {
    conds', params', paramIndex' := conds, params, paramIndex;
    if Selected(f.experience) {
      var range := ExperienceRange(f.experience);
      if range.Some? {
        var bounds := RangeBounds(range.value);
        if bounds.1 == Some("+") {
          BuiltAppend(conds', params', ExperienceFrom(paramIndex'), [IntParam(Some(bounds.0))], f);
          conds' := conds' + [ExperienceFrom(paramIndex')];
          params' := params' + [IntParam(Some(bounds.0))];
        } else {
          BuiltAppend(conds', params', ExperienceBetween(paramIndex'), [IntParam(Some(bounds.0)), IntParam(bounds.1)], f);
          conds' := conds' + [ExperienceBetween(paramIndex')];
          params' := params' + [IntParam(Some(bounds.0)), IntParam(bounds.1)];
          paramIndex' := paramIndex' + 1;
        }
        paramIndex' := paramIndex' + 1;
      }
    }
  }

  method AddSalary(f: Filters, conds: seq<Condition>, params: seq<Param>, paramIndex: int)
    returns (conds': seq<Condition>, params': seq<Param>, paramIndex': int)
    requires Built(conds, params, paramIndex, f)
    ensures Built(conds', params', paramIndex', f)
    ensures Kinds(conds') == Kinds(conds) + SalaryKinds(f)
    ensures |params'| == |params| + |SalaryKinds(f)|
  {
    conds', params', paramIndex' := conds, params, paramIndex;
    if f.salaryMin.Some? && f.salaryMin.value > 0 {
      BuiltAppend(conds', params', SalaryMaxAtLeast(paramIndex'), [Number(f.salaryMin.value)], f);
      conds' := conds' + [SalaryMaxAtLeast(paramIndex')];
      params' := params' + [Number(f.salaryMin.value)];
      paramIndex' := paramIndex' + 1;
    }
    ghost var mid := conds';
    if f.salaryMax.Some? && f.salaryMax.value < 999999 {
      BuiltAppend(conds', params', SalaryMinAtMost(paramIndex'), [Number(f.salaryMax.value)], f);
      conds' := conds' + [SalaryMinAtMost(paramIndex')];
      params' := params' + [Number(f.salaryMax.value)];
      paramIndex' := paramIndex' + 1;
    }
  }

  method AddFlags(f: Filters, conds: seq<Condition>, params: seq<Param>, paramIndex: int)
    returns (conds': seq<Condition>)
    requires Built(conds, params, paramIndex, f)
    ensures Built(conds', params, paramIndex, f)
    ensures Kinds(conds') == Kinds(conds) + FlagKinds(f)
  {
    conds' := conds;
    if f.availableOnly {
      BuiltAppend(conds', params, Available, [], f);
      assert params + [] == params;
      conds' := conds' + [Available];
    }
    if f.verifiedOnly {
      BuiltAppend(conds', params, EmailVerified, [], f);
      assert params + [] == params;
      conds' := conds' + [EmailVerified];
    }
  }

  /**
   * The WHERE builder: `whereConditions` and `queryParams` grow together and `paramIndex` ends one past
   * the last parameter, so every placeholder written binds the intended value, and exactly the active
   * filters contribute a condition, in the route's order.
   */
  method BuildWhere(f: Filters) returns (conds: seq<Condition>, params: seq<Param>, paramIndex: int)
    ensures Built(conds, params, paramIndex, f)
    ensures Kinds(conds) == ActiveKinds(f)
    ensures |params| == ParamCount(f)
  {
    conds := [PublicResume, ActiveUser];
    params := [];
    paramIndex := 1;
    assert Kinds(conds) == [IsPublic, IsActive];
    conds, params, paramIndex := AddSearch(f, conds, params, paramIndex);
    conds, params, paramIndex := AddLocation(f, conds, params, paramIndex);
    conds, params, paramIndex := AddSkill(f, conds, params, paramIndex);
    conds, params, paramIndex := AddExperience(f, conds, params, paramIndex);
    conds, params, paramIndex := AddSalary(f, conds, params, paramIndex);
    conds := AddFlags(f, conds, params, paramIndex);
  }

  /** The route's own result for the experience filter: no label takes the `>=` form. */
  lemma ExperienceAlwaysTwoSided(f: Filters)
    ensures ExperienceAtLeast !in ActiveKinds(f)
    ensures ParamCount(f) == 2 * |SearchKinds(f)| + |LocationKinds(f)| + |SkillKinds(f)|
      + (if Selected(f.experience) && ExperienceRange(f.experience).Some? then 2 else 0) + |SalaryKinds(f)|
  {
    var e := ExperienceKinds(f);
    if Selected(f.experience) && ExperienceRange(f.experience).Some? {
      NoOpenEndedRange(f.experience);
      assert e == [ExperienceRangeKind];
    } else {
      assert e == [];
    }
    var before := [IsPublic, IsActive] + SearchKinds(f) + LocationKinds(f) + SkillKinds(f);
    var after := SalaryKinds(f) + FlagKinds(f);
    assert ExperienceAtLeast !in before && ExperienceAtLeast !in e && ExperienceAtLeast !in after;
    assert ActiveKinds(f) == before + e + after;
  }

  /** `premium=true` is read but adds no condition and no parameter. */
  lemma PremiumAddsNothing(f: Filters)
    ensures ActiveKinds(f.(premiumOnly := true)) == ActiveKinds(f.(premiumOnly := false))
    ensures ParamCount(f.(premiumOnly := true)) == ParamCount(f.(premiumOnly := false))
  {
  }

  const DefaultOrder := "r.updated_at DESC"

  /** The `switch (sortBy)` choice of ORDER BY. */
  function OrderBy(sortBy: string): (r: string)
    ensures r == DefaultOrder <==> sortBy !in {"rating", "experience", "salary-high", "last-active", "relevance"}
    ensures |r| >= |DefaultOrder| && r[|r| - |DefaultOrder|..] == DefaultOrder
  {
    match sortBy
    case "rating" => "user_rating DESC NULLS LAST, " + DefaultOrder
    case "experience" => "r.experience_years DESC, " + DefaultOrder
    case "salary-high" => "r.salary_expectation_max DESC NULLS LAST, " + DefaultOrder
    case "last-active" => "u.last_login DESC NULLS LAST, " + DefaultOrder
    case "relevance" => "r.is_primary DESC, r.views_count DESC, " + DefaultOrder
    case _ => DefaultOrder
  }

  /** The page query: the WHERE conditions, the ORDER BY text, the placeholder number of `LIMIT` (`OFFSET`
      uses the next one) and the full parameter list. */
  datatype PageQuery = PageQuery(conds: seq<Condition>, orderBy: string, limitAt: nat, params: seq<Param>)

  /** The count query shares `params` with the page query; the page query appends limit and offset, which
      the two placeholders after the last filter parameter bind. */
  method BuildQueries(query: CandidateQuery, page: ApiUtils.Pagination)
    returns (countParams: seq<Param>, pageQuery: PageQuery)
    ensures WellBound(pageQuery.conds, countParams, FiltersOf(query))
    ensures WellBound(pageQuery.conds, pageQuery.params, FiltersOf(query))
    ensures Kinds(pageQuery.conds) == ActiveKinds(FiltersOf(query))
    ensures pageQuery.limitAt == |countParams| + 1 && |pageQuery.params| == pageQuery.limitAt + 1
    ensures pageQuery.params[pageQuery.limitAt - 1] == Number(page.limit)
    ensures pageQuery.params[pageQuery.limitAt] == Number(page.offset)
    ensures pageQuery.params[..|countParams|] == countParams
    ensures pageQuery.orderBy == OrderBy(FiltersOf(query).sortBy)
  {
    var f := FiltersOf(query);
    var conds, params, paramIndex := BuildWhere(f);
    var orderBy := OrderBy(f.sortBy);
    countParams := params;
    WellBoundExtend(conds, params, [Number(page.limit), Number(page.offset)], f);
    pageQuery := PageQuery(conds, orderBy, paramIndex, params + [Number(page.limit), Number(page.offset)]);
  }

  /** The `pagination` object of the response. */
  datatype PageMeta = PageMeta(page: int, limit: int, total: int, totalPages: int, hasNext: bool, hasPrev: bool)

  function PaginationMeta(p: ApiUtils.Pagination, total: nat): (r: PageMeta)
    requires p.limit >= 1
    ensures r.page == p.page && r.limit == p.limit && r.total == total
    ensures r.totalPages * p.limit >= total && (r.totalPages == 0 || (r.totalPages - 1) * p.limit < total)
    ensures r.hasNext <==> p.offset + p.limit < total
    ensures r.hasPrev <==> p.page > 1
  {
    PageMeta(p.page, p.limit, total, CeilDiv(total, p.limit), p.offset + p.limit < total, p.page > 1)
  }

  /** With the offset `getPaginationParams` computes, there is a next page exactly when the current page
      is before the last one. */
  lemma HasNextBeforeLastPage(pageQ: Option<int>, limitQ: Option<int>, total: nat)
    ensures var p := ApiUtils.GetPaginationParams(pageQ, limitQ);
      PaginationMeta(p, total).hasNext <==> p.page < PaginationMeta(p, total).totalPages
  {
    var p := ApiUtils.GetPaginationParams(pageQ, limitQ);
    var m := PaginationMeta(p, total);
    NextOffset(p.page, p.limit, p.offset);
    BeforeLastPage(p.page, p.limit, total, m.totalPages);
  }

  /** The offset of page `page` plus one page is where page `page + 1` starts. */
  lemma NextOffset(page: int, limit: int, offset: int)
    requires offset == (page - 1) * limit
    ensures offset + limit == page * limit
  {
  }

  /** With `t` the least page count covering `total`, page `page` ends before `total` iff it is before page `t`. */
  lemma BeforeLastPage(page: int, limit: int, total: nat, t: int)
    requires limit >= 1 && t * limit >= total && (t == 0 || (t - 1) * limit < total)
    ensures page * limit < total <==> page < t
  {
    if page < t {
      MulMonotone(page, t - 1, limit);
    } else {
      MulMonotone(t, page, limit);
    }
  }

  lemma MulMonotone(a: int, b: int, c: nat)
    requires a <= b
    ensures a * c <= b * c
  {
  }
}
