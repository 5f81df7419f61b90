/**
 * `GET /api/jobs`: the parameterised query builder with its `paramCount` counter, and the in-memory
 * fallback that filters and pages three built-in jobs when the database is unavailable.
 */
module JobsRoute {
  import opened Common
  import opened Strings

  /** The query string as read; `None` where a key is absent. `page` and `limit` are the integers
      `Number.parseInt` produced (defaults 1 and 10). */
  datatype JobsQuery = JobsQuery(
    category: Option<string>, search: Option<string>, location: Option<string>,
    employmentType: Option<string>, experienceLevel: Option<string>, isRemote: Option<string>,
    page: int, limit: int)

  /** JavaScript truthiness of a `searchParams.get` result: present and non-empty. */
  predicate Given(v: Option<string>) { v.Some? && v.value != "" }

  /** One `AND ...` clause of the SQL text, with the `$n` placeholder it writes. */
  datatype Clause =
    | CategoryIs(at: nat)          // cat.slug = $at
    | TitleOrDescriptionLike(at: nat)  // j.title ILIKE $at OR j.description ILIKE $at
    | LocationLike(at: nat)        // j.location ILIKE $at
    | EmploymentIs(at: nat)        // j.employment_type = $at
    | ExperienceIs(at: nat)        // j.experience_level = $at
    | RemoteOnly                   // j.is_remote = true (no parameter)

  /** A clause's placeholder binds the value the clause compares with. */
  predicate BindsIntended(c: Clause, params: seq<string>, q: JobsQuery) {
    match c
    case CategoryIs(i) => 1 <= i <= |params| && Given(q.category) && params[i - 1] == q.category.value
    case TitleOrDescriptionLike(i) =>
      1 <= i <= |params| && Given(q.search) && params[i - 1] == "%" + q.search.value + "%"
    case LocationLike(i) => 1 <= i <= |params| && Given(q.location) && params[i - 1] == "%" + q.location.value + "%"
    case EmploymentIs(i) => 1 <= i <= |params| && Given(q.employmentType) && params[i - 1] == q.employmentType.value
    case ExperienceIs(i) =>
      1 <= i <= |params| && Given(q.experienceLevel) && params[i - 1] == q.experienceLevel.value
    case RemoteOnly => q.isRemote == Some("true")
  }

  /** The `k`-th clause binds its value. */
  predicate BindsAt(clauses: seq<Clause>, k: int, params: seq<string>, q: JobsQuery) {
    0 <= k < |clauses| && BindsIntended(clauses[k], params, q)
  }

  predicate WellBound(clauses: seq<Clause>, params: seq<string>, q: JobsQuery) {
    forall k | 0 <= k < |clauses| :: BindsAt(clauses, k, params, q)
  }

  /** Pushing a parameter never disturbs the placeholders already written. */
  lemma WellBoundAppend(clauses: seq<Clause>, params: seq<string>, c: Clause, more: seq<string>, q: JobsQuery)
    requires WellBound(clauses, params, q) && BindsIntended(c, params + more, q)
    ensures WellBound(clauses + [c], params + more, q)
  {
    forall k | 0 <= k < |clauses| + 1 ensures BindsAt(clauses + [c], k, params + more, q) {
      if k < |clauses| {
        assert BindsAt(clauses, k, params, q);
      }
    }
  }

  /** `[x]` when `on` holds, nothing otherwise. */
  function Optional<T>(on: bool, x: T): seq<T> { if on then [x] else [] }

  /** The supplied filters that take a parameter, in the order the route tests them. */
  function ParameterFilters(q: JobsQuery): seq<Clause> {
    Optional(Given(q.category), CategoryIs(0))
    + Optional(Given(q.search), TitleOrDescriptionLike(0))
    + Optional(Given(q.location), LocationLike(0))
    + Optional(Given(q.employmentType), EmploymentIs(0))
    + Optional(Given(q.experienceLevel), ExperienceIs(0))
  }

  /** All supplied filters: `is_remote=true` comes last and takes no parameter. */
  function SuppliedFilters(q: JobsQuery): seq<Clause> {
    ParameterFilters(q) + Optional(q.isRemote == Some("true"), RemoteOnly)
  }

  /** A clause with its placeholder number erased. */
  function Unnumbered(c: Clause): Clause {
    match c
    case CategoryIs(_) => CategoryIs(0)
    case TitleOrDescriptionLike(_) => TitleOrDescriptionLike(0)
    case LocationLike(_) => LocationLike(0)
    case EmploymentIs(_) => EmploymentIs(0)
    case ExperienceIs(_) => ExperienceIs(0)
    case RemoteOnly => RemoteOnly
  }

  function UnnumberedAll(clauses: seq<Clause>): seq<Clause> {
    if clauses == [] then [] else UnnumberedAll(clauses[..|clauses| - 1]) + [Unnumbered(clauses[|clauses| - 1])]
  }

  /** The SQL text's variable part: the `AND` clauses, then `LIMIT limit OFFSET (page - 1) * limit`, both
      written into the text rather than bound. */
  datatype JobsSql = JobsSql(clauses: seq<Clause>, limit: int, offset: int)

  /** A clause numbered with placeholder `n`. */
  function Numbered(c: Clause, n: nat): Clause {
    match c
    case CategoryIs(_) => CategoryIs(n)
    case TitleOrDescriptionLike(_) => TitleOrDescriptionLike(n)
    case LocationLike(_) => LocationLike(n)
    case EmploymentIs(_) => EmploymentIs(n)
    case ExperienceIs(_) => ExperienceIs(n)
    case RemoteOnly => RemoteOnly
  }

  /** The builder's invariant: `paramCount` is the number of parameters pushed so far, and every clause
      written binds its value. */
  predicate Built(clauses: seq<Clause>, params: seq<string>, paramCount: int, q: JobsQuery) {
    paramCount == |params| && WellBound(clauses, params, q)
  }

  /** The value a parameter filter compares with, `None` when its query value is not given: the raw value,
      or `%value%` for the `ILIKE` filters. */
  function FilterValue(q: JobsQuery, c: Clause): (v: Option<string>)
    ensures c.RemoteOnly? ==> v.None?
  {
    match c
    case CategoryIs(_) => if Given(q.category) then Some(q.category.value) else None
    case TitleOrDescriptionLike(_) => if Given(q.search) then Some("%" + q.search.value + "%") else None
    case LocationLike(_) => if Given(q.location) then Some("%" + q.location.value + "%") else None
    case EmploymentIs(_) => if Given(q.employmentType) then Some(q.employmentType.value) else None
    case ExperienceIs(_) => if Given(q.experienceLevel) then Some(q.experienceLevel.value) else None
    case RemoteOnly => None
  }

  /** The filter `c` when its value is given, nothing otherwise. */
  function Supplied(q: JobsQuery, c: Clause): seq<Clause> {
    Optional(FilterValue(q, c).Some?, c)
  }

  /** The five parameter filters are the five blocks' `Supplied` filters in turn. */
  lemma ParameterFiltersSupplied(q: JobsQuery)
    ensures ParameterFilters(q) == Supplied(q, CategoryIs(0)) + Supplied(q, TitleOrDescriptionLike(0))
      + Supplied(q, LocationLike(0)) + Supplied(q, EmploymentIs(0)) + Supplied(q, ExperienceIs(0))
  {
    assert Supplied(q, CategoryIs(0)) == Optional(Given(q.category), CategoryIs(0));
    assert Supplied(q, TitleOrDescriptionLike(0)) == Optional(Given(q.search), TitleOrDescriptionLike(0));
    assert Supplied(q, LocationLike(0)) == Optional(Given(q.location), LocationLike(0));
    assert Supplied(q, EmploymentIs(0)) == Optional(Given(q.employmentType), EmploymentIs(0));
    assert Supplied(q, ExperienceIs(0)) == Optional(Given(q.experienceLevel), ExperienceIs(0));
  }

  /** One `if (filter) { paramCount++; query += ...$paramCount...; params.push(value) }` block. */
  method AddFilter(q: JobsQuery, clauses: seq<Clause>, params: seq<string>, paramCount: int, clause: Clause)
    returns (clauses': seq<Clause>, params': seq<string>, paramCount': int)
    requires Built(clauses, params, paramCount, q)
    requires Unnumbered(clause) == clause
    ensures Built(clauses', params', paramCount', q)
    ensures UnnumberedAll(clauses') == UnnumberedAll(clauses) + Supplied(q, clause)
    ensures |params'| == |params| + |Supplied(q, clause)|
  {
    clauses', params', paramCount' := clauses, params, paramCount;
    var value := FilterValue(q, clause);
    if value.Some? {
      paramCount' := paramCount' + 1;
      assert BindsIntended(Numbered(clause, paramCount'), params' + [value.value], q);
      WellBoundAppend(clauses', params', Numbered(clause, paramCount'), [value.value], q);
      clauses' := clauses' + [Numbered(clause, paramCount')];
      params' := params' + [value.value];
      assert Unnumbered(Numbered(clause, paramCount')) == Unnumbered(clause);
      assert clauses'[..|clauses'| - 1] == clauses;
    }
  }

  /** `if (is_remote === "true") { query += " AND j.is_remote = true" }`: a clause without a parameter. */
  method AddRemote(q: JobsQuery, clauses: seq<Clause>, params: seq<string>, paramCount: int)
    returns (clauses': seq<Clause>)
    requires Built(clauses, params, paramCount, q)
    ensures Built(clauses', params, paramCount, q)
    ensures UnnumberedAll(clauses') == UnnumberedAll(clauses) + Optional(q.isRemote == Some("true"), RemoteOnly)
  {
    clauses' := clauses;
    if q.isRemote == Some("true") {
      WellBoundAppend(clauses', params, RemoteOnly, [], q);
      assert params + [] == params;
      clauses' := clauses' + [RemoteOnly];
      assert clauses'[..|clauses'| - 1] == clauses;
    }
  }

  /** The five filters that push a parameter, each in its own `if` block. */
  method AddParameterFilters(q: JobsQuery) returns (clauses: seq<Clause>, params: seq<string>, paramCount: int)
    ensures Built(clauses, params, paramCount, q)
    ensures UnnumberedAll(clauses) == ParameterFilters(q)
    ensures |params| == |ParameterFilters(q)|
  {
    clauses, params, paramCount := [], [], 0;
    // `added` is what the blocks so far have added, without placeholder numbers.
    ghost var added: seq<Clause> := [];
    assert UnnumberedAll(clauses) == added;
    clauses, params, paramCount := AddFilter(q, clauses, params, paramCount, CategoryIs(0));
    added := added + Supplied(q, CategoryIs(0));
    clauses, params, paramCount := AddFilter(q, clauses, params, paramCount, TitleOrDescriptionLike(0));
    added := added + Supplied(q, TitleOrDescriptionLike(0));
    clauses, params, paramCount := AddFilter(q, clauses, params, paramCount, LocationLike(0));
    added := added + Supplied(q, LocationLike(0));
    clauses, params, paramCount := AddFilter(q, clauses, params, paramCount, EmploymentIs(0));
    added := added + Supplied(q, EmploymentIs(0));
    clauses, params, paramCount := AddFilter(q, clauses, params, paramCount, ExperienceIs(0));
    added := added + Supplied(q, ExperienceIs(0));
    assert UnnumberedAll(clauses) == added && |params| == |added|;
    ParameterFiltersSupplied(q);
  }

  /**
   * The query builder: each supplied filter bumps `paramCount` once and pushes one parameter, so the
   * placeholder it writes is `$paramCount` and binds the value just pushed; `is_remote=true` pushes nothing.
   * `LIMIT` and `OFFSET` are written into the text.
   */
  method BuildJobsQuery(q: JobsQuery) returns (sql: JobsSql, params: seq<string>)
    ensures WellBound(sql.clauses, params, q)
    ensures UnnumberedAll(sql.clauses) == SuppliedFilters(q)
    ensures |params| == |ParameterFilters(q)|
    ensures sql.limit == q.limit && sql.offset == (q.page - 1) * q.limit
  {
    var clauses, paramCount;
    clauses, params, paramCount := AddParameterFilters(q);
    clauses := AddRemote(q, clauses, params, paramCount);
    sql := JobsSql(clauses, q.limit, (q.page - 1) * q.limit);
  }

  /** JavaScript's `Math.ceil(total / limit)`; `None` stands for the `Infinity`/`NaN` a zero limit gives. */
  function TotalPages(total: nat, limit: int): (r: Option<int>)
    ensures r.None? <==> limit == 0
    ensures limit > 0 ==> r.value >= 0 && r.value * limit >= total && (r.value == 0 || (r.value - 1) * limit < total)
  {
    if limit == 0 then None
    else if limit > 0 then Some(CeilDiv(total, limit))
    else Some(-(total / -limit))
  }

  /** The response's `pagination` object. */
  datatype JobsPagination = JobsPagination(page: int, limit: int, total: nat, totalPages: Option<int>)

  /** The database path reports as `total` the number of rows on the returned page. */
  function DatabasePagination<Row>(q: JobsQuery, rows: seq<Row>): (r: JobsPagination)
    ensures r.total == |rows| && r.page == q.page && r.limit == q.limit
  {
    JobsPagination(q.page, q.limit, |rows|, TotalPages(|rows|, q.limit))
  }

  /** Because `total` counts only the returned page, a database that honours `LIMIT` always reports at
      most one page. */
  lemma DatabaseReportsOnePage<Row>(q: JobsQuery, rows: seq<Row>)
    requires q.limit > 0 && |rows| <= q.limit
    ensures DatabasePagination(q, rows).totalPages == if rows == [] then Some(0) else Some(1)
  {
    var t := TotalPages(|rows|, q.limit).value;
    if rows != [] {
      assert t >= 1;
      if t >= 2 {
        MulAtLeastOne(t - 1, q.limit);
      }
    }
  }

  /** A job of the built-in fallback list; `createdAt` is fixed when the module loads, so
      every request sees the same value. */
  datatype Job = Job(
    id: string, title: string, company: string, location: string, salaryMin: int, salaryMax: int,
    currency: string, employmentType: string, isRemote: bool, isFeatured: bool, createdAt: string,
    categorySlug: string)

  function FallbackJobs(now: string): (r: seq<Job>)
    ensures |r| == 3
  {
    [ Job("1", "Frontend Developer", "TechCorp", "Душанбе", 3000, 5000, "TJS", "full_time", false, true, now,
          "it-development"),
      Job("2", "UI/UX Designer", "DesignStudio", "Худжанд", 2500, 4000, "TJS", "full_time", true, false, now,
          "design"),
      Job("3", "Marketing Manager", "MarketPro", "Душанбе", 4000, 6000, "TJS", "full_time", false, true, now,
          "marketing") ]
  }

  /** Case-insensitive `includes`, both sides lower-cased. */
  predicate ContainsIgnoringCase(hay: string, needle: string) {
    Contains(ToLower(hay), ToLower(needle))
  }

  /** Every supplied fallback filter accepts the job; `experience_level` is not among them. */
  predicate PassesAll(job: Job, q: JobsQuery) {
    (Given(q.category) ==> job.categorySlug == q.category.value)
    && (Given(q.search) ==>
          ContainsIgnoringCase(job.title, q.search.value) || ContainsIgnoringCase(job.company, q.search.value))
    && (Given(q.location) ==> ContainsIgnoringCase(job.location, q.location.value))
    && (Given(q.employmentType) ==> job.employmentType == q.employmentType.value)
    && (q.isRemote == Some("true") ==> job.isRemote)
  }

  /** `if (on) { xs = xs.filter(p) }`. */
  function FilterIf(xs: seq<Job>, on: bool, p: Job -> bool): seq<Job> {
    if on then Filter(xs, p) else xs
  }

  /** The test of each fallback filter. */
  function CategoryTest(q: JobsQuery): Job -> bool { (job: Job) => job.categorySlug == q.category.GetOr("") }
  function SearchTest(q: JobsQuery): Job -> bool {
    (job: Job) =>
      ContainsIgnoringCase(job.title, q.search.GetOr("")) || ContainsIgnoringCase(job.company, q.search.GetOr(""))
  }
  function LocationTest(q: JobsQuery): Job -> bool {
    (job: Job) => ContainsIgnoringCase(job.location, q.location.GetOr(""))
  }
  function TypeTest(q: JobsQuery): Job -> bool { (job: Job) => job.employmentType == q.employmentType.GetOr("") }
  function RemoteTest(q: JobsQuery): Job -> bool { (job: Job) => job.isRemote }

  /** The fallback's chain of `filter` calls, one per supplied filter. */
  function FallbackFilter(jobs: seq<Job>, q: JobsQuery): seq<Job> {
    var byCategory := FilterIf(jobs, Given(q.category), CategoryTest(q));
    var bySearch := FilterIf(byCategory, Given(q.search), SearchTest(q));
    var byLocation := FilterIf(bySearch, Given(q.location), LocationTest(q));
    var byType := FilterIf(byLocation, Given(q.employmentType), TypeTest(q));
    FilterIf(byType, q.isRemote == Some("true"), RemoteTest(q))
  }

  /** Filtering by tests that agree on every element gives the same result. */
  lemma {:induction false} FilterSameTest<T>(xs: seq<T>, p: T -> bool, p': T -> bool)
    requires forall i | 0 <= i < |xs| :: p(xs[i]) == p'(xs[i])
    ensures Filter(xs, p) == Filter(xs, p')
  {
    if xs != [] {
      FilterSameTest(xs[1..], p, p');
    }
  }

  lemma {:induction false} FilterKeepsAll<T>(xs: seq<T>, p: T -> bool)
    requires forall i | 0 <= i < |xs| :: p(xs[i])
    ensures Filter(xs, p) == xs
  {
    if xs != [] {
      FilterKeepsAll(xs[1..], p);
    }
  }

  /** A conditional filter is a filter by a test that passes everything when the condition is off. */
  lemma FilterIfFirst(xs: seq<Job>, on: bool, p: Job -> bool, both: Job -> bool)
    requires forall i | 0 <= i < |xs| :: both(xs[i]) == (!on || p(xs[i]))
    ensures FilterIf(xs, on, p) == Filter(xs, both)
  {
    if on {
      FilterSameTest(xs, p, both);
    } else {
      FilterKeepsAll(xs, both);
    }
  }

  /** A conditional filter after a filter is one filter by both tests. */
  lemma {:induction false} FilterIfAfter(xs: seq<Job>, p: Job -> bool, on: bool, p': Job -> bool, both: Job -> bool)
    requires forall i | 0 <= i < |xs| :: both(xs[i]) == (p(xs[i]) && (!on || p'(xs[i])))
    ensures FilterIf(Filter(xs, p), on, p') == Filter(xs, both)
  {
    if xs != [] {
      FilterIfAfter(xs[1..], p, on, p', both);
      var rest := Filter(xs[1..], p);
      assert Filter(xs, both) == (if both(xs[0]) then [xs[0]] else []) + Filter(xs[1..], both);
      if p(xs[0]) {
        assert Filter(xs, p) == [xs[0]] + rest;
        if on {
          assert Filter([xs[0]] + rest, p') == (if p'(xs[0]) then [xs[0]] else []) + Filter(rest, p') by {
            assert ([xs[0]] + rest)[1..] == rest;
          }
        }
      } else {
        assert Filter(xs, p) == rest;
      }
    }
  }

  /** The tests of the first one to five filters of the chain, as one test each. */
  function Upto1(q: JobsQuery): Job -> bool { (x: Job) => !Given(q.category) || CategoryTest(q)(x) }
  function Upto2(q: JobsQuery): Job -> bool { (x: Job) => Upto1(q)(x) && (!Given(q.search) || SearchTest(q)(x)) }
  function Upto3(q: JobsQuery): Job -> bool { (x: Job) => Upto2(q)(x) && (!Given(q.location) || LocationTest(q)(x)) }
  function Upto4(q: JobsQuery): Job -> bool {
    (x: Job) => Upto3(q)(x) && (!Given(q.employmentType) || TypeTest(q)(x))
  }
  function Upto5(q: JobsQuery): Job -> bool {
    (x: Job) => Upto4(q)(x) && (q.isRemote != Some("true") || RemoteTest(q)(x))
  }

  lemma FirstTwoFilters(jobs: seq<Job>, q: JobsQuery)
    ensures FilterIf(FilterIf(jobs, Given(q.category), CategoryTest(q)), Given(q.search), SearchTest(q))
      == Filter(jobs, Upto2(q))
  {
    FilterIfFirst(jobs, Given(q.category), CategoryTest(q), Upto1(q));
    FilterIfAfter(jobs, Upto1(q), Given(q.search), SearchTest(q), Upto2(q));
  }

  lemma ThirdFilter(jobs: seq<Job>, q: JobsQuery)
    ensures FilterIf(Filter(jobs, Upto2(q)), Given(q.location), LocationTest(q)) == Filter(jobs, Upto3(q))
  {
    FilterIfAfter(jobs, Upto2(q), Given(q.location), LocationTest(q), Upto3(q));
  }

  lemma FourthFilter(jobs: seq<Job>, q: JobsQuery)
    ensures FilterIf(Filter(jobs, Upto3(q)), Given(q.employmentType), TypeTest(q)) == Filter(jobs, Upto4(q))
  {
    FilterIfAfter(jobs, Upto3(q), Given(q.employmentType), TypeTest(q), Upto4(q));
  }

  lemma FifthFilter(jobs: seq<Job>, q: JobsQuery)
    ensures FilterIf(Filter(jobs, Upto4(q)), q.isRemote == Some("true"), RemoteTest(q)) == Filter(jobs, Upto5(q))
  {
    FilterIfAfter(jobs, Upto4(q), q.isRemote == Some("true"), RemoteTest(q), Upto5(q));
  }

  lemma AllFiltersArePassesAll(jobs: seq<Job>, q: JobsQuery)
    ensures Filter(jobs, Upto5(q)) == Filter(jobs, (job: Job) => PassesAll(job, q))
  {
    forall i | 0 <= i < |jobs| ensures Upto5(q)(jobs[i]) == PassesAll(jobs[i], q) {
      var x := jobs[i];
      assert CategoryTest(q)(x) == (x.categorySlug == q.category.GetOr(""));
      assert Given(q.category) ==> q.category.GetOr("") == q.category.value;
      assert Upto1(q)(x) == (Given(q.category) ==> x.categorySlug == q.category.value);
      assert Upto2(q)(x) == (Upto1(q)(x) && (Given(q.search) ==>
        ContainsIgnoringCase(x.title, q.search.value) || ContainsIgnoringCase(x.company, q.search.value)));
      assert Upto3(q)(x) == (Upto2(q)(x) && (Given(q.location) ==> ContainsIgnoringCase(x.location, q.location.value)));
      assert Upto4(q)(x) == (Upto3(q)(x) && (Given(q.employmentType) ==> x.employmentType == q.employmentType.value));
    }
    FilterSameTest(jobs, Upto5(q), (job: Job) => PassesAll(job, q));
  }

  /** Filtering is conjunctive and keeps the jobs' order: the chain equals one `filter` by every test. */
  lemma FallbackFilterConjunctive(jobs: seq<Job>, q: JobsQuery)
    ensures FallbackFilter(jobs, q) == Filter(jobs, (job: Job) => PassesAll(job, q))
  {
    FirstTwoFilters(jobs, q);
    ThirdFilter(jobs, q);
    FourthFilter(jobs, q);
    FifthFilter(jobs, q);
    AllFiltersArePassesAll(jobs, q);
  }

  /** `experience_level` narrows the database query only: the fallback ignores it. */
  lemma FallbackIgnoresExperience(jobs: seq<Job>, q: JobsQuery, level: Option<string>)
    ensures FallbackFilter(jobs, q.(experienceLevel := level)) == FallbackFilter(jobs, q)
  {
  }

  /** An index argument of `Array.prototype.slice`: negative counts from the end, then clamped. */
  function SliceIndex(i: int, len: nat): (r: nat)
    ensures r <= len
    ensures 0 <= i ==> r == if i <= len then i else len
    ensures i < 0 ==> r == if len + i >= 0 then len + i else 0
  {
    if i < 0 then (if len + i >= 0 then len + i else 0) else if i <= len then i else len
  }

  /** `xs.slice(start, end)`. */
  function JsSlice<T>(xs: seq<T>, start: int, end: int): seq<T> {
    var s := SliceIndex(start, |xs|);
    var e := SliceIndex(end, |xs|);
    if s < e then xs[s..e] else []
  }

  /** The fallback response: the requested page of the filtered jobs, and the filtered count. */
  function FallbackResponse(q: JobsQuery, now: string): (r: (seq<Job>, JobsPagination))
    ensures r.1.total == |FallbackFilter(FallbackJobs(now), q)| && r.1.total <= 3
  {
    var filtered := FallbackFilter(FallbackJobs(now), q);
    var start := (q.page - 1) * q.limit;
    (JsSlice(filtered, start, start + q.limit),
     JobsPagination(q.page, q.limit, |filtered|, TotalPages(|filtered|, q.limit)))
  }

  /** For a positive page and limit, page `p` holds exactly the filtered jobs at positions
      `(p - 1) * limit` up to `p * limit` (clipped to the list), so the pages split the list without overlap. */
  lemma PageContents<T>(xs: seq<T>, page: int, limit: int)
    requires page >= 1 && limit >= 1
    ensures var start := (page - 1) * limit;
      var pageItems := JsSlice(xs, start, start + limit);
      |pageItems| <= limit
      && (forall k | 0 <= k < |pageItems| :: start + k < |xs| && pageItems[k] == xs[start + k])
      && (start < |xs| ==> |pageItems| == (if page * limit <= |xs| then limit else |xs| - start))
  {
    var start := (page - 1) * limit;
    assert start >= 0 by { MulNonNegative(page - 1, limit); }
    assert start + limit == page * limit;
  }

  lemma MulAtLeastOne(a: int, c: int)
    requires a >= 1 && c >= 0
    ensures a * c >= c
  {
    assert a * c == (a - 1) * c + c;
    MulNonNegative(a - 1, c);
  }

  lemma MulNonNegative(a: int, b: int)
    requires a >= 0 && b >= 0
    ensures a * b >= 0
  {
  }
}
