/**
 * The response, pagination, search-parameter, slug and relative-time helpers of the API layer.
 * Timestamps are parameters; a query value that is absent or empty is `None`.
 */
module ApiUtils {
  import opened Common
  import opened Strings

  /** The JSON envelope of every API response. */
  datatype Body<+T> =
    | Success(data: T, timestamp: string)
    | Failure(message: string, details: Option<string>, timestamp: string)

  datatype Response<+T> = Response(status: int, body: Body<T>)

  /** `createApiResponse(data, status = 200)`; `status` is `None` when the argument is omitted. */
  function CreateApiResponse<T>(data: T, status: Option<int>, now: string): (r: Response<T>)
    ensures r.body.Success? && r.body.data == data
    ensures status.None? ==> r.status == 200
    ensures status.Some? ==> r.status == status.value
  {
    Response(status.GetOr(200), Success(data, now))
  }

  /** `createErrorResponse(message, status = 400, details)`. */
  function CreateErrorResponse<T>(message: string, status: Option<int>, details: Option<string>, now: string): (r: Response<T>)
    ensures r.body.Failure? && r.body.message == message && r.body.details == details
    ensures status.None? ==> r.status == 400
    ensures status.Some? ==> r.status == status.value
  {
    Response(status.GetOr(400), Failure(message, details, now))
  }

  /** `handleApiError`: the first matching phrase of the error message decides the status. */
  function HandleApiError<T>(message: string, now: string): (r: Response<T>)
    ensures r.body.Failure? && r.body.details == None
    ensures r.status == 400 <==> Contains(message, "Validation error")
    ensures r.status == 404 <==> !Contains(message, "Validation error") && Contains(message, "not found")
    ensures r.status == 401 <==>
      !Contains(message, "Validation error") && !Contains(message, "not found") && Contains(message, "Unauthorized")
    ensures r.status == 403 <==>
      !Contains(message, "Validation error") && !Contains(message, "not found") && !Contains(message, "Unauthorized")
      && Contains(message, "Forbidden")
    ensures r.status in {400, 404, 401, 403, 500}
    ensures r.status in {400, 404} ==> r.body.message == message
    ensures r.status == 401 ==> r.body.message == "Unauthorized"
    ensures r.status == 403 ==> r.body.message == "Forbidden"
    ensures r.status == 500 ==> r.body.message == "Internal server error"
  {
    if Contains(message, "Validation error") then CreateErrorResponse(message, Some(400), None, now)
    else if Contains(message, "not found") then CreateErrorResponse(message, Some(404), None, now)
    else if Contains(message, "Unauthorized") then CreateErrorResponse("Unauthorized", Some(401), None, now)
    else if Contains(message, "Forbidden") then CreateErrorResponse("Forbidden", Some(403), None, now)
    else CreateErrorResponse("Internal server error", Some(500), None, now)
  }

  datatype Pagination = Pagination(page: int, limit: int, offset: int)

  function Max(a: int, b: int): int { if a >= b then a else b }
  function Min(a: int, b: int): int { if a <= b then a else b }

  /** `getPaginationParams` for integer (or absent) `page` and `limit` query values. */
  function GetPaginationParams(page: Option<int>, limit: Option<int>): (r: Pagination)
    ensures r.page >= 1 && 1 <= r.limit <= 100 && r.offset >= 0
    ensures r.offset == (r.page - 1) * r.limit
    ensures page.None? ==> r.page == 1
    ensures limit.None? ==> r.limit == 20
    ensures page.Some? && page.value >= 1 ==> r.page == page.value
    ensures limit.Some? && 1 <= limit.value <= 100 ==> r.limit == limit.value
  {
    var p := Max(1, page.GetOr(1));
    var l := Min(100, Max(1, limit.GetOr(20)));
    Pagination(p, l, (p - 1) * l)
  }

  /** The search query of a listing, with every default applied; a salary bound that does not parse is
      `NaN` (`None`). */
  datatype SearchParams = SearchParams(
    q: string, location: string, category: string, kind: string, experience: string,
    salaryMin: Option<int>, salaryMax: Option<int>, remote: bool, featured: bool, urgent: bool, sortBy: string)

  /** The query values `getSearchParams` reads, `None` where absent. */
  datatype SearchQuery = SearchQuery(
    q: Option<string>, location: Option<string>, category: Option<string>, kind: Option<string>,
    experience: Option<string>, salaryMin: Option<string>, salaryMax: Option<string>,
    remote: Option<string>, featured: Option<string>, urgent: Option<string>, sortBy: Option<string>)

  /** `value || fallback` on a query string: an absent or empty value gives the fallback. */
  function OrDefault(v: Option<string>, fallback: string): (r: string)
    ensures v.Some? && v.value != "" ==> r == v.value
    ensures v.None? || v.value == "" ==> r == fallback
  {
    if v.Some? && v.value != "" then v.value else fallback
  }

  /** `Number.parseInt(value || fallback)` for a numeric fallback, which reads back as itself. */
  function ParseIntOr(v: Option<string>, fallback: nat): (r: Option<int>)
    ensures (v.None? || v.value == "") ==> r == Some(fallback)
    ensures v.Some? && v.value != "" ==> r == ParseInt(v.value)
  {
    if v.Some? && v.value != "" then ParseInt(v.value)
    else Some(fallback)
  }

  /** Reading the fallback as a number is the same as parsing its text, as the callers of `Number.parseInt` do. */
  lemma ParseIntOrParsesText(v: Option<string>, fallback: nat)
    ensures ParseIntOr(v, fallback) == ParseInt(OrDefault(v, NatToString(fallback)))
  {
    if v.None? || v.value == "" {
      ParseIntOfNatToString(fallback);
    }
  }

  /** The defaults `getSearchParams` writes as text are the numbers 0 and 999999. */
  lemma SalaryDefaultTexts()
    ensures NatToString(0) == "0" && NatToString(999999) == "999999"
  {
  }

  function GetSearchParams(query: SearchQuery): (r: SearchParams)
    ensures r.q == OrDefault(query.q, "")
    ensures r.location == OrDefault(query.location, "all")
    ensures r.category == OrDefault(query.category, "all")
    ensures r.kind == OrDefault(query.kind, "all")
    ensures r.experience == OrDefault(query.experience, "all")
    ensures r.sortBy == OrDefault(query.sortBy, "newest")
    ensures r.salaryMin == ParseIntOr(query.salaryMin, 0) && r.salaryMax == ParseIntOr(query.salaryMax, 999999)
    ensures query.salaryMin.None? || query.salaryMin.value == "" ==> r.salaryMin == Some(0)
    ensures query.salaryMax.None? || query.salaryMax.value == "" ==> r.salaryMax == Some(999999)
    ensures r.remote <==> query.remote == Some("true")
    ensures r.featured <==> query.featured == Some("true")
    ensures r.urgent <==> query.urgent == Some("true")
  {
    SearchParams(
      OrDefault(query.q, ""), OrDefault(query.location, "all"), OrDefault(query.category, "all"),
      OrDefault(query.kind, "all"), OrDefault(query.experience, "all"),
      ParseIntOr(query.salaryMin, 0), ParseIntOr(query.salaryMax, 999999),
      query.remote == Some("true"), query.featured == Some("true"), query.urgent == Some("true"),
      OrDefault(query.sortBy, "newest"))
  }

  /** The salary bounds are `Number.parseInt` of the value, or of the default's text when the value is
      absent or empty. */
  lemma SalaryBoundsParseText(query: SearchQuery)
    ensures GetSearchParams(query).salaryMin == ParseInt(OrDefault(query.salaryMin, "0"))
    ensures GetSearchParams(query).salaryMax == ParseInt(OrDefault(query.salaryMax, "999999"))
  {
    SalaryDefaultTexts();
    ParseIntOrParsesText(query.salaryMin, 0);
    ParseIntOrParsesText(query.salaryMax, 999999);
  }

  // ---- generateSlug ----

  /** The characters `[\w\s-]` that survive the first replacement. */
  predicate KeptBySlug(c: char) { IsWordChar(c) || IsSpace(c) || c == '-' }

  /** The class `[\s_-]` whose runs collapse into one dash. */
  predicate IsSeparator(c: char) { IsSpace(c) || c == '_' || c == '-' }

  /** A character a slug may contain. */
  predicate IsSlugChar(c: char) { IsAsciiLower(c) || IsDigit(c) || c == '-' }

  /** `replace(/[^\w\s-]/g, "")`. */
  function RemoveUnsafe(s: string): (r: string)
    ensures r == Filter(s, KeptBySlug)
    ensures forall i | 0 <= i < |r| :: KeptBySlug(r[i]) && r[i] in s
  {
    if s == [] then [] else (if KeptBySlug(s[0]) then [s[0]] else []) + RemoveUnsafe(s[1..])
  }

  /** Drops the leading run of separators. */
  function DropSeparators(s: string): (r: string)
    ensures |r| <= |s| && r == s[|s| - |r|..]
    ensures r == [] || !IsSeparator(r[0])
  {
    if s != [] && IsSeparator(s[0]) then DropSeparators(s[1..]) else s
  }

  /** What `DropSeparators` drops is a run of separators (and, by its contract, the whole leading run). */
  lemma {:induction false} DroppedAreSeparators(s: string)
    ensures forall i | 0 <= i < |s| - |DropSeparators(s)| :: IsSeparator(s[i])
    decreases |s|
  {
    if s != [] && IsSeparator(s[0]) {
      DroppedAreSeparators(s[1..]);
      assert forall i | 1 <= i < |s| - |DropSeparators(s)| :: s[i] == s[1..][i - 1];
    }
  }

  /** `replace(/[\s_-]+/g, "-")`. */
  function CollapseSeparators(s: string): (r: string)
    ensures s == [] <==> r == []
    ensures s != [] ==> (r[0] == '-' <==> IsSeparator(s[0])) && (r[0] != '-' ==> r[0] == s[0])
    decreases |s|
  {
    if s == [] then []
    else if IsSeparator(s[0]) then "-" + CollapseSeparators(DropSeparators(s))
    else [s[0]] + CollapseSeparators(s[1..])
  }

  /** A whole run of separators collapses into one dash. */
  lemma CollapseRun(w: string)
    requires w != [] && forall i | 0 <= i < |w| :: IsSeparator(w[i])
    ensures CollapseSeparators(w) == "-"
  {
    assert DropSeparators(w) == [];
  }

  /** Dropping a run that `b` does not continue leaves the rest of the run's string followed by `b`. */
  lemma {:induction false} DropSeparatorsConcat(a: string, b: string)
    requires DropSeparators(a) != [] || b == [] || !IsSeparator(b[0])
    ensures DropSeparators(a + b) == DropSeparators(a) + b
    decreases |a|, 1
  {
    if a == [] {
      assert a + b == b;
    } else if IsSeparator(a[0]) {
      DropRunConcat(a, b);
    } else {
      DropKept(a);
      DropKept(a + b);
    }
  }

  /** The step of `DropSeparatorsConcat` for a string that starts with a separator. */
  lemma {:induction false} DropRunConcat(a: string, b: string)
    requires a != [] && IsSeparator(a[0])
    requires DropSeparators(a) != [] || b == [] || !IsSeparator(b[0])
    ensures DropSeparators(a + b) == DropSeparators(a) + b
    decreases |a|, 0
  {
    DropLeading(a, a[1..]);
    DropSeparatorsConcat(a[1..], b);
    TailOfConcat(a, b);
    DropLeading(a + b, a[1..] + b);
  }

  lemma TailOfConcat(a: string, b: string)
    requires a != []
    ensures (a + b)[1..] == a[1..] + b
  {
  }

  /** A leading separator is dropped with the rest of its run. */
  lemma DropLeading(s: string, rest: string)
    requires s != [] && IsSeparator(s[0]) && rest == s[1..]
    ensures DropSeparators(s) == DropSeparators(rest)
  {
  }

  /** A string that does not start with a separator has nothing to drop. */
  lemma DropKept(s: string)
    requires s != [] && !IsSeparator(s[0])
    ensures DropSeparators(s) == s
  {
  }

  /** Collapsing works piece by piece when the cut does not fall inside a run of separators: every run
      becomes one dash and every other character is kept, in order. */
  lemma {:induction false} CollapseConcat(a: string, b: string)
    requires a == [] || b == [] || !IsSeparator(a[|a| - 1]) || !IsSeparator(b[0])
    ensures CollapseSeparators(a + b) == CollapseSeparators(a) + CollapseSeparators(b)
    decreases |a|
  {
    if a == [] {
      assert a + b == b;
    } else {
      var ab := a + b;
      assert ab[0] == a[0];
      var rest := if IsSeparator(a[0]) then DropSeparators(a) else a[1..];
      var head := if IsSeparator(a[0]) then "-" else [a[0]];
      if IsSeparator(a[0]) {
        if rest == [] {
          DroppedAreSeparators(a);
          assert IsSeparator(a[|a| - 1]);
        }
        DropSeparatorsConcat(a, b);
      } else {
        assert ab[1..] == a[1..] + b;
      }
      assert rest == [] || rest[|rest| - 1] == a[|a| - 1];
      CollapseUnfold(a);
      CollapseUnfold(ab);
      CollapseConcat(rest, b);
      ConcatAssoc(head, CollapseSeparators(rest), CollapseSeparators(b));
    }
  }

  /** One step of collapsing: a leading run becomes a dash, any other first character stays. */
  lemma CollapseUnfold(s: string)
    requires s != []
    ensures IsSeparator(s[0]) ==> CollapseSeparators(s) == "-" + CollapseSeparators(DropSeparators(s))
    ensures !IsSeparator(s[0]) ==> CollapseSeparators(s) == [s[0]] + CollapseSeparators(s[1..])
  {
  }

  /** Characters that can reach the collapsing stage: kept by the first replacement, already lower-cased. */
  predicate Cleaned(c: char) { KeptBySlug(c) && !IsAsciiUpper(c) }

  /** Collapsing cleaned text yields slug characters and never two dashes in a row. */
  lemma {:induction false} CollapseShape(s: string)
    requires forall i | 0 <= i < |s| :: Cleaned(s[i])
    ensures SlugBody(CollapseSeparators(s))
    decreases |s|
  {
    if s != [] {
      CollapseUnfold(s);
      if IsSeparator(s[0]) {
        var rest := DropSeparators(s);
        CleanedSuffix(s, rest);
        CollapseShape(rest);
        SlugCons('-', CollapseSeparators(rest));
      } else {
        CleanedSuffix(s, s[1..]);
        CollapseShape(s[1..]);
        SlugCons(s[0], CollapseSeparators(s[1..]));
      }
    }
  }

  /** A suffix of cleaned text is cleaned. */
  lemma CleanedSuffix(s: string, t: string)
    requires forall i | 0 <= i < |s| :: Cleaned(s[i])
    requires |t| <= |s| && t == s[|s| - |t|..]
    ensures forall i | 0 <= i < |t| :: Cleaned(t[i])
  {
    assert forall i | 0 <= i < |t| :: t[i] == s[|s| - |t| + i];
  }

  /** A slug character in front of a slug body is a slug body, unless a dash meets a dash. */
  lemma SlugCons(c: char, tail: string)
    requires IsSlugChar(c) && SlugBody(tail)
    requires c == '-' ==> tail == [] || tail[0] != '-'
    ensures SlugBody([c] + tail)
  {
    var r := [c] + tail;
    assert forall i | 0 <= i < |tail| :: r[i + 1] == tail[i];
    forall i | 0 <= i < |r| - 1
      ensures !DoubleDashAt(r, i)
    {
      if i > 0 {
        assert !DoubleDashAt(tail, i - 1);
      }
    }
  }

  /** The length of the run of dashes `s` starts with. */
  function LeadingDashes(s: string): (n: nat)
    ensures n <= |s| && (n == |s| || s[n] != '-')
    ensures forall i | 0 <= i < n :: s[i] == '-'
  {
    if s != [] && s[0] == '-' then
      var m := LeadingDashes(s[1..]);
      assert forall i | 1 <= i < m + 1 :: s[i] == s[1..][i - 1];
      m + 1
    else 0
  }

  /** `replace(/^-+|-+$/g, "")`: drops leading and trailing dashes. */
  function TrimLeadingDashes(s: string): (r: string)
    ensures |r| <= |s| && r == s[|s| - |r|..]
    ensures forall i | 0 <= i < |s| - |r| :: s[i] == '-'
    ensures r == [] || r[0] != '-'
  {
    s[LeadingDashes(s)..]
  }

  function TrimTrailingDashes(s: string): (r: string)
    ensures |r| <= |s| && r == s[..|r|]
    ensures forall i | |r| <= i < |s| :: s[i] == '-'
    ensures r == [] || r[|r| - 1] != '-'
  {
    if s != [] && s[|s| - 1] == '-' then
      var r := TrimTrailingDashes(s[..|s| - 1]);
      DashRunAfter(s, s[..|s| - 1], r);
      r
    else s
  }

  /** One more trailing dash after a trimmed front is dropped with the run. */
  lemma DashRunAfter(s: string, t: string, r: string)
    requires s != [] && s[|s| - 1] == '-' && t == s[..|s| - 1] && |r| <= |t| && r == t[..|r|]
    requires forall i | |r| <= i < |t| :: t[i] == '-'
    ensures r == s[..|r|]
    ensures forall i | |r| <= i < |s| :: s[i] == '-'
  {
    assert forall i | |r| <= i < |t| :: s[i] == t[i];
  }

  /** `generateSlug`. */
  function GenerateSlug(text: string): string {
    TrimTrailingDashes(TrimLeadingDashes(CollapseSeparators(RemoveUnsafe(ToLower(text)))))
  }

  /** The shape of every slug: lower-case letters, digits and single inner dashes. */
  predicate IsSlug(s: string) {
    SlugBody(s) && (s == [] || (s[0] != '-' && s[|s| - 1] != '-'))
  }

  /** Slug characters, never two dashes in a row. */
  predicate SlugBody(s: string) {
    && (forall i | 0 <= i < |s| :: IsSlugChar(s[i]))
    && (forall i | 0 <= i < |s| - 1 :: !DoubleDashAt(s, i))
  }

  /** Two dashes in a row at `i`. */
  predicate DoubleDashAt(s: string, i: int) {
    0 <= i < |s| - 1 && s[i] == '-' && s[i + 1] == '-'
  }

  /** The first two stages leave only cleaned characters. */
  lemma CleanedAfterRemove(text: string)
    ensures forall i | 0 <= i < |RemoveUnsafe(ToLower(text))| :: Cleaned(RemoveUnsafe(ToLower(text))[i])
  {
    var a := ToLower(text);
    var b := RemoveUnsafe(a);
    forall i | 0 <= i < |b| ensures Cleaned(b[i]) {
      var k :| 0 <= k < |a| && a[k] == b[i];
      assert a[k] == LowerChar(text[k]);
    }
  }

  /** Any run of a slug body is a slug body. */
  lemma SlugBodySlice(c: string, lo: nat, d: string)
    requires SlugBody(c) && lo + |d| <= |c| && d == c[lo..lo + |d|]
    ensures SlugBody(d)
  {
    assert forall i | 0 <= i < |d| :: d[i] == c[lo + i];
    forall i | 0 <= i < |d| - 1
      ensures !DoubleDashAt(d, i)
    {
      assert !DoubleDashAt(c, lo + i);
    }
  }

  /** Trimming the dashes of a slug body gives a slug. */
  lemma TrimmedIsSlug(c: string)
    requires SlugBody(c)
    ensures IsSlug(TrimTrailingDashes(TrimLeadingDashes(c)))
  {
    var d := TrimLeadingDashes(c);
    LeadingTrimKeepsSlugBody(c);
    var e := TrimTrailingDashes(d);
    TrailingTrimKeepsSlugBody(d);
    if e != [] {
      assert e[0] == d[0];
    }
  }

  lemma LeadingTrimKeepsSlugBody(c: string)
    requires SlugBody(c)
    ensures SlugBody(TrimLeadingDashes(c))
  {
    var d := TrimLeadingDashes(c);
    SlugBodySlice(c, |c| - |d|, d);
  }

  lemma TrailingTrimKeepsSlugBody(d: string)
    requires SlugBody(d)
    ensures SlugBody(TrimTrailingDashes(d))
  {
    var e := TrimTrailingDashes(d);
    SlugBodySlice(d, 0, e);
  }

  /** Every output of `generateSlug` has the slug shape. */
  lemma GenerateSlugIsSlug(text: string)
    ensures IsSlug(GenerateSlug(text))
  {
    CleanedAfterRemove(text);
    CollapseShape(RemoveUnsafe(ToLower(text)));
    TrimmedIsSlug(CollapseSeparators(RemoveUnsafe(ToLower(text))));
  }

  /** On a slug, every stage of `generateSlug` is the identity. */
  lemma {:induction false} CollapseKeepsSlugBody(s: string)
    requires SlugBody(s)
    ensures CollapseSeparators(s) == s
    decreases |s|
  {
    if s != [] {
      SlugBodySlice(s, 1, s[1..]);
      CollapseKeepsSlugBody(s[1..]);
      CollapseHead(s);
      assert s == [s[0]] + s[1..];
    }
  }

  /** In a slug body a dash is followed by a letter or digit, so the run it starts is that dash alone, and
      the first character comes through collapsing as it is. */
  lemma CollapseHead(s: string)
    requires SlugBody(s) && s != []
    ensures CollapseSeparators(s) == [s[0]] + CollapseSeparators(s[1..])
  {
    if s[0] == '-' {
      assert DropSeparators(s) == s[1..] by {
        if |s| > 1 {
          assert !DoubleDashAt(s, 0) && IsSlugChar(s[1]);
          assert !IsSeparator(s[1]);
        }
      }
    } else {
      assert !IsSeparator(s[0]);
    }
  }

  lemma {:induction false} RemoveUnsafeKeepsSlug(s: string)
    requires forall i | 0 <= i < |s| :: IsSlugChar(s[i])
    ensures RemoveUnsafe(s) == s
    decreases |s|
  {
    if s != [] {
      RemoveUnsafeKeepsSlug(s[1..]);
    }
  }

  /** `generateSlug` leaves a slug unchanged. */
  lemma GenerateSlugFixesSlug(s: string)
    requires IsSlug(s)
    ensures GenerateSlug(s) == s
  {
    assert ToLower(s) == s;
    RemoveUnsafeKeepsSlug(s);
    CollapseKeepsSlugBody(s);
  }

  /** `generateSlug` is idempotent. */
  lemma GenerateSlugIdempotent(text: string)
    ensures GenerateSlug(GenerateSlug(text)) == GenerateSlug(text)
  {
    GenerateSlugIsSlug(text);
    GenerateSlugFixesSlug(GenerateSlug(text));
  }

  // ---- formatRelativeTime ----

  /** The bucket `formatRelativeTime` picks for an age in whole seconds. */
  datatype Age = JustNow | MinutesAgo(n: nat) | HoursAgo(n: nat) | DaysAgo(n: nat) | OnDate

  function AgeBucket(diffSeconds: int): (r: Age)
    ensures r.JustNow? <==> diffSeconds < 60
    ensures r.MinutesAgo? ==> 1 <= r.n < 60 && r.n * 60 <= diffSeconds < (r.n + 1) * 60
    ensures r.HoursAgo? ==> 1 <= r.n < 24 && r.n * 3600 <= diffSeconds < (r.n + 1) * 3600
    ensures r.DaysAgo? ==> 1 <= r.n < 30 && r.n * 86400 <= diffSeconds < (r.n + 1) * 86400
    ensures r.OnDate? <==> diffSeconds >= 2592000
    ensures 60 <= diffSeconds < 3600 <==> r.MinutesAgo?
    ensures 3600 <= diffSeconds < 86400 <==> r.HoursAgo?
    ensures 86400 <= diffSeconds < 2592000 <==> r.DaysAgo?
  {
    if diffSeconds < 60 then JustNow
    else if diffSeconds < 3600 then MinutesAgo(diffSeconds / 60)
    else if diffSeconds < 86400 then HoursAgo(diffSeconds / 3600)
    else if diffSeconds < 2592000 then DaysAgo(diffSeconds / 86400)
    else OnDate
  }

  /** `formatRelativeTime`, given the age in seconds and the `formatDate` rendering of the date. */
  function FormatRelativeTime(diffSeconds: int, formattedDate: string): (r: string)
    ensures diffSeconds < 60 ==> r == "только что"
    ensures diffSeconds >= 2592000 ==> r == formattedDate
  {
    match AgeBucket(diffSeconds)
    case JustNow => "только что"
    case MinutesAgo(n) => NatToString(n) + " мин назад"
    case HoursAgo(n) => NatToString(n) + " ч назад"
    case DaysAgo(n) => NatToString(n) + " дн назад"
    case OnDate => formattedDate
  }
}
