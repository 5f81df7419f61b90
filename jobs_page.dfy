/**
 * The job listing page: its formatting helpers (Russian plural forms, relative time, salary text, label
 * maps), the active-filter counter, the page-number window, and the page state that `clearFilters` and
 * the save toggle update.
 */
module JobsPage {
  import opened Common
  import opened Strings
  import ApiUtils

  // ---------------------------------------------------------------------------------------------
  // getRussianPluralForm

  /** JavaScript's `%`: the remainder takes the sign of the dividend. */
  function JsRem(n: int, m: int): (r: int)
    requires m > 0
    ensures n >= 0 ==> r == n % m
    ensures n < 0 ==> -m < r <= 0
  {
    if n >= 0 then n % m else -((-n) % m)
  }

  /** Which of the three forms `getRussianPluralForm` picks: 0 ("минуту"), 1 ("минуты") or 2 ("минут"). */
  function PluralIndex(n: int): (i: nat)
    ensures i < 3
    ensures n >= 0 ==> (i == 0 <==> n % 10 == 1 && n % 100 != 11)
    ensures n >= 0 ==> (i == 1 <==> 2 <= n % 10 <= 4 && !(10 <= n % 100 <= 19))
    ensures n < 0 ==> i == 2
  {
    var remainder10 := JsRem(n, 10);
    var remainder100 := JsRem(n, 100);
    if remainder10 == 1 && remainder100 != 11 then 0
    else if 2 <= remainder10 <= 4 && (remainder100 < 10 || remainder100 >= 20) then 1
    else 2
  }

  function PluralForm(n: int, forms: (string, string, string)): (r: string)
    ensures r in {forms.0, forms.1, forms.2}
  {
    match PluralIndex(n)
    case 0 => forms.0
    case 1 => forms.1
    case _ => forms.2
  }

  /** The form depends on the last two digits only, and 11 to 14 always take the third form. */
  lemma PluralByLastTwoDigits(n: nat)
    ensures PluralIndex(n) == PluralIndex(n % 100)
    ensures 11 <= n % 100 <= 14 ==> PluralIndex(n) == 2
  {
    var r := n % 100;
    LastDigitOfLastTwo(n);
    assert JsRem(n, 10) == JsRem(r, 10) && JsRem(n, 100) == JsRem(r, 100);
  }

  lemma LastDigitOfLastTwo(n: nat)
    ensures (n % 100) % 10 == n % 10 && (n % 100) % 100 == n % 100
  {
    var q := n / 100;
    var r := n % 100;
    assert n == 10 * (10 * q) + r;
    assert r == 10 * (r / 10) + r % 10;
    assert n == 10 * (10 * q + r / 10) + r % 10;
  }

  // ---------------------------------------------------------------------------------------------
  // formatRelativeTime

  /** The bucket the page's `formatRelativeTime` picks for an age in whole seconds. */
  datatype Age = JustNow | MinutesAgo(n: nat) | HoursAgo(n: nat) | DaysAgo(n: nat) | OnDate

  function AgeBucket(diffSeconds: int): (r: Age)
    ensures r.JustNow? <==> diffSeconds < 60
    ensures r.MinutesAgo? <==> 60 <= diffSeconds < 3600
    ensures r.HoursAgo? <==> 3600 <= diffSeconds < 86400
    ensures r.DaysAgo? <==> 86400 <= diffSeconds < 604800
    ensures r.OnDate? <==> diffSeconds >= 604800
    ensures r.MinutesAgo? ==> 1 <= r.n < 60 && r.n * 60 <= diffSeconds < (r.n + 1) * 60
    ensures r.HoursAgo? ==> 1 <= r.n < 24 && r.n * 3600 <= diffSeconds < (r.n + 1) * 3600
    ensures r.DaysAgo? ==> 1 <= r.n < 7 && r.n * 86400 <= diffSeconds < (r.n + 1) * 86400
  {
    if diffSeconds < 60 then JustNow
    else if diffSeconds < 3600 then MinutesAgo(diffSeconds / 60)
    else if diffSeconds < 86400 then HoursAgo(diffSeconds / 3600)
    else if diffSeconds < 604800 then DaysAgo(diffSeconds / 86400)
    else OnDate
  }

  /** `formatRelativeTime`, given the age in seconds and the `toLocaleDateString("ru-RU")` rendering. */
  function FormatRelativeTime(diffSeconds: int, localeDate: string): (r: string)
    ensures diffSeconds < 60 ==> r == "Только что"
    ensures diffSeconds >= 604800 ==> r == localeDate
    ensures AgeBucket(diffSeconds).MinutesAgo? ==>
      r == NatToString(AgeBucket(diffSeconds).n) + " " + PluralForm(AgeBucket(diffSeconds).n, ("минуту", "минуты", "минут")) + " назад"
    ensures AgeBucket(diffSeconds).HoursAgo? ==>
      r == NatToString(AgeBucket(diffSeconds).n) + " " + PluralForm(AgeBucket(diffSeconds).n, ("час", "часа", "часов")) + " назад"
    ensures AgeBucket(diffSeconds).DaysAgo? ==>
      r == NatToString(AgeBucket(diffSeconds).n) + " " + PluralForm(AgeBucket(diffSeconds).n, ("день", "дня", "дней")) + " назад"
  {
    match AgeBucket(diffSeconds)
    case JustNow => "Только что"
    case MinutesAgo(n) => NatToString(n) + " " + PluralForm(n, ("минуту", "минуты", "минут")) + " назад"
    case HoursAgo(n) => NatToString(n) + " " + PluralForm(n, ("час", "часа", "часов")) + " назад"
    case DaysAgo(n) => NatToString(n) + " " + PluralForm(n, ("день", "дня", "дней")) + " назад"
    case OnDate => localeDate
  }

  // ---------------------------------------------------------------------------------------------
  // formatSalary

  /** A job's `salary` object; `None` bounds are `undefined` or `null`. */
  datatype Salary = Salary(min: Option<int>, max: Option<int>, period: Option<string>)

  /** A salary bound is truthy when present and not 0. */
  predicate Truthy(bound: Option<int>) { bound.Some? && bound.value != 0 }

  /** `periodMap`. */
  function PeriodLabel(period: string): Option<string> {
    match period
    case "hourly" => Some("/час")
    case "daily" => Some("/день")
    case "weekly" => Some("/неделя")
    case "monthly" => Some("/мес")
    case "yearly" => Some("/год")
    case _ => None
  }

  /** The period suffix: monthly unless a known period is given. */
  function PeriodSuffix(period: Option<string>): (r: string)
    ensures period.None? || PeriodLabel(period.value).None? ==> r == "/мес"
    ensures period.Some? && PeriodLabel(period.value).Some? ==> r == PeriodLabel(period.value).value
  {
    if period.Some? && period.value != "" then PeriodLabel(period.value).GetOr("/мес") else "/мес"
  }

  const Negotiable := "По договоренности"

  /** `formatSalary`; `formatCurrency` (an `Intl.NumberFormat` rendering) is a parameter. */
  function FormatSalary(salary: Option<Salary>, formatCurrency: int -> string): (r: string)
    ensures salary.None? || (!Truthy(salary.value.min) && !Truthy(salary.value.max)) ==> r == Negotiable
    ensures salary.Some? && Truthy(salary.value.min) && Truthy(salary.value.max) ==>
      r == formatCurrency(salary.value.min.value) + " - " + formatCurrency(salary.value.max.value) + PeriodSuffix(salary.value.period)
    ensures salary.Some? && Truthy(salary.value.min) && !Truthy(salary.value.max) ==>
      r == "от " + formatCurrency(salary.value.min.value) + PeriodSuffix(salary.value.period)
    ensures salary.Some? && !Truthy(salary.value.min) && Truthy(salary.value.max) ==>
      r == "до " + formatCurrency(salary.value.max.value) + PeriodSuffix(salary.value.period)
  {
    if salary.None? || (!Truthy(salary.value.min) && !Truthy(salary.value.max)) then Negotiable
    else
      var s := salary.value;
      var period := PeriodSuffix(s.period);
      if Truthy(s.min) && Truthy(s.max) then formatCurrency(s.min.value) + " - " + formatCurrency(s.max.value) + period
      else if Truthy(s.min) then "от " + formatCurrency(s.min.value) + period
      else if Truthy(s.max) then "до " + formatCurrency(s.max.value) + period
      else Negotiable
  }

  // ---------------------------------------------------------------------------------------------
  // getEmploymentTypeLabel, getExperienceLevelLabel

  const Unspecified := "Не указано"

  function EmploymentTypeName(code: string): Option<string> {
    match code
    case "full_time" => Some("Полная занятость")
    case "part_time" => Some("Частичная занятость")
    case "contract" => Some("Контракт")
    case "internship" => Some("Стажировка")
    case "freelance" => Some("Фриланс")
    case _ => None
  }

  function ExperienceLevelName(code: string): Option<string> {
    match code
    case "entry" => Some("Без опыта")
    case "junior" => Some("Младший")
    case "mid" => Some("Средний")
    case "senior" => Some("Старший")
    case "lead" => Some("Ведущий")
    case "executive" => Some("Руководитель")
    case _ => None
  }

  /** A label lookup: "Не указано" for a missing or empty code, the name of a known code, and an unknown
      code echoed back. */
  function Label(code: Option<string>, names: string -> Option<string>): (r: string)
    ensures code.None? || code.value == "" ==> r == Unspecified
    ensures code.Some? && code.value != "" && names(code.value).None? ==> r == code.value
    ensures code.Some? && code.value != "" && names(code.value).Some? && names(code.value).value != "" ==>
      r == names(code.value).value
  {
    if code.None? || code.value == "" then Unspecified
    else match names(code.value)
      case Some(name) => if name != "" then name else code.value
      case None => code.value
  }

  function EmploymentTypeLabel(code: Option<string>): (r: string)
    ensures code.None? || code.value == "" ==> r == Unspecified
    ensures code.Some? && EmploymentTypeName(code.value).Some? ==> r == EmploymentTypeName(code.value).value
    ensures code.Some? && code.value != "" && EmploymentTypeName(code.value).None? ==> r == code.value
  {
    Label(code, EmploymentTypeName)
  }

  function ExperienceLevelLabel(code: Option<string>): (r: string)
    ensures code.None? || code.value == "" ==> r == Unspecified
    ensures code.Some? && ExperienceLevelName(code.value).Some? ==> r == ExperienceLevelName(code.value).value
    ensures code.Some? && code.value != "" && ExperienceLevelName(code.value).None? ==> r == code.value
  {
    Label(code, ExperienceLevelName)
  }

  // ---------------------------------------------------------------------------------------------
  // The page-number window (shared by the job and candidate listings)

  function Min(a: int, b: int): int { if a <= b then a else b }
  function Max(a: int, b: int): int { if a >= b then a else b }

  /** The page numbers shown: `Math.min(5, totalPages)` consecutive numbers (none when that is not
      positive) from `Math.max(1, Math.min(totalPages - 4, currentPage - 2))`. */
  function PageWindow(totalPages: int, currentPage: int): (w: seq<int>)
    ensures |w| == Max(0, Min(5, totalPages))
    ensures forall i | 0 <= i < |w| :: 1 <= w[i] <= totalPages
    ensures forall i | 0 < i < |w| :: w[i] == w[i - 1] + 1
    ensures 1 <= currentPage <= totalPages ==> currentPage in w
  {
    var first := Max(1, Min(totalPages - 4, currentPage - 2));
    var w := seq(Max(0, Min(5, totalPages)), i => first + i);
    if 1 <= currentPage <= totalPages then
      assert w[currentPage - first] == currentPage;
      w
    else w
  }

  // ---------------------------------------------------------------------------------------------
  // activeFiltersCount, clearFilters, toggleSaveJob

  /** The filter controls of the job listing. */
  datatype JobFilters = JobFilters(
    searchQuery: string, location: string, category: string, employmentType: string, experience: string,
    salaryRange: (Option<int>, Option<int>), remoteOnly: bool, featuredOnly: bool, urgentOnly: bool)

  const ClearedFilters := JobFilters("", "all", "all", "all", "all", (Some(1000), Some(10000)), false, false, false)

  /** `activeFiltersCount`: the truthy items among the eight controls, plus one for a moved salary range. */
  function ActiveFiltersCount(f: JobFilters): (r: nat)
    ensures r <= 9
    ensures r == 0 <==> f == ClearedFilters
  {
    var flags := [f.searchQuery != "", f.location != "all", f.category != "all", f.employmentType != "all",
                  f.experience != "all", f.remoteOnly, f.featuredOnly, f.urgentOnly];
    assert CountTrue(flags) == 0 ==> !flags[0] && !flags[1] && !flags[2] && !flags[3] && !flags[4] && !flags[5]
                                     && !flags[6] && !flags[7];
    CountTrue(flags) + (if f.salaryRange != (Some(1000), Some(10000)) then 1 else 0)
  }

  // ---------------------------------------------------------------------------------------------
  // The page's URL: written by `fetchJobs`, read back when the page is created

  /** `URLSearchParams`, by name. */
  type QueryParams = map<string, string>

  /** `params.get(key)`; `None` is `null`. */
  function QueryGet(params: QueryParams, key: string): Option<string> {
    if key in params then Some(params[key]) else None
  }

  /** `n.toString()` for a number that may be `NaN` (`None`). */
  function NumberText(n: Option<int>): string {
    match n
    case None => "NaN"
    case Some(v) => IntToString(v)
  }

  /** The fallbacks the page writes as text are the numbers it uses. */
  lemma FallbackTexts()
    ensures NatToString(1) == "1" && NatToString(1000) == "1000" && NatToString(10000) == "10000"
  {
  }

  /** `b.toString()`. */
  function BoolText(b: bool): string { if b then "true" else "false" }

  /** The filter controls' initial values: each query value or its default, the salary bounds through
      `Number.parseInt`, and the flags only for "true". */
  function InitialFilters(params: QueryParams): JobFilters {
    JobFilters(
      ApiUtils.OrDefault(QueryGet(params, "q"), ""),
      ApiUtils.OrDefault(QueryGet(params, "location"), "all"),
      ApiUtils.OrDefault(QueryGet(params, "category"), "all"),
      ApiUtils.OrDefault(QueryGet(params, "type"), "all"),
      ApiUtils.OrDefault(QueryGet(params, "experience"), "all"),
      (ApiUtils.ParseIntOr(QueryGet(params, "salary_min"), 1000),
       ApiUtils.ParseIntOr(QueryGet(params, "salary_max"), 10000)),
      QueryGet(params, "remote") == Some("true"),
      QueryGet(params, "featured") == Some("true"),
      QueryGet(params, "urgent") == Some("true"))
  }

  function InitialSortBy(params: QueryParams): string {
    ApiUtils.OrDefault(QueryGet(params, "sort_by"), "newest")
  }

  /** `Number.parseInt(searchParams.get("page") || "1")`. */
  function InitialPage(params: QueryParams): Option<int> {
    ApiUtils.ParseIntOr(QueryGet(params, "page"), 1)
  }

  /** The parameters `fetchJobs(page)` sends and pushes into the address bar; an "all" select is sent empty. */
  function JobsUrlParams(f: JobFilters, sortBy: string, page: int, limit: int): QueryParams {
    UrlOf(JobsUrlValues(f, sortBy, page, limit))
  }

  /** The thirteen values of `fetchJobs`'s parameters, in the order they are written. */
  function JobsUrlValues(f: JobFilters, sortBy: string, page: int, limit: int): (v: seq<string>)
    ensures |v| == 13
  {
    [IntToString(page), IntToString(limit), f.searchQuery,
     if f.location != "all" then f.location else "",
     if f.category != "all" then f.category else "",
     if f.employmentType != "all" then f.employmentType else "",
     if f.experience != "all" then f.experience else "",
     NumberText(f.salaryRange.0), NumberText(f.salaryRange.1),
     BoolText(f.remoteOnly), BoolText(f.featuredOnly), BoolText(f.urgentOnly), sortBy]
  }

  function UrlOf(v: seq<string>): QueryParams
    requires |v| == 13
  {
    map["page" := v[0], "limit" := v[1], "q" := v[2], "location" := v[3], "category" := v[4], "type" := v[5],
        "experience" := v[6], "salary_min" := v[7], "salary_max" := v[8], "remote" := v[9], "featured" := v[10],
        "urgent" := v[11], "sort_by" := v[12]]
  }

  /** Each name of the page's URL holds its own value. */
  lemma UrlOfGet(v: seq<string>)
    requires |v| == 13
    ensures var params := UrlOf(v);
      QueryGet(params, "page") == Some(v[0]) && QueryGet(params, "q") == Some(v[2])
      && QueryGet(params, "location") == Some(v[3]) && QueryGet(params, "category") == Some(v[4])
      && QueryGet(params, "type") == Some(v[5]) && QueryGet(params, "experience") == Some(v[6])
      && QueryGet(params, "salary_min") == Some(v[7]) && QueryGet(params, "salary_max") == Some(v[8])
      && QueryGet(params, "remote") == Some(v[9]) && QueryGet(params, "featured") == Some(v[10])
      && QueryGet(params, "urgent") == Some(v[11]) && QueryGet(params, "sort_by") == Some(v[12])
  {
  }

  /** A page opened without query parameters starts with the cleared filters, sorted by "newest", on page 1. */
  lemma FreshPageIsCleared()
    ensures InitialFilters(map[]) == ClearedFilters && ActiveFiltersCount(InitialFilters(map[])) == 0
    ensures InitialSortBy(map[]) == "newest" && InitialPage(map[]) == Some(1)
  {
  }

  /** A number written with `toString` reads back with `Number.parseInt`, `NaN` included. */
  lemma NumberTextRoundTrip(n: Option<int>)
    ensures ParseInt(NumberText(n)) == n
  {
    if n.Some? {
      ParseIntOfIntToString(n.value);
    } else {
      assert !IsSpace('N');
      assert TrimStart("NaN") == "NaN" && SignStripped("NaN") == "NaN";
    }
  }

  /** A number stored under `key` with `toString` is what `parseInt(get(key) || fallback)` reads. */
  lemma NumberReadBack(got: Option<string>, n: Option<int>, fallback: nat)
    requires got == Some(NumberText(n))
    ensures ApiUtils.ParseIntOr(got, fallback) == n
  {
    NumberTextRoundTrip(n);
    assert NumberText(n) != "";
  }

  /** Reloading the URL `fetchJobs` pushed restores the filters, the sort order and the page, as long as no
      select holds an empty value (an empty one comes back as "all", an empty sort as "newest"). */
  lemma UrlRestoresPage(f: JobFilters, sortBy: string, page: int, limit: int)
    requires f.location != "" && f.category != "" && f.employmentType != "" && f.experience != "" && sortBy != ""
    ensures InitialFilters(JobsUrlParams(f, sortBy, page, limit)) == f
    ensures InitialSortBy(JobsUrlParams(f, sortBy, page, limit)) == sortBy
    ensures InitialPage(JobsUrlParams(f, sortBy, page, limit)) == Some(page)
  {
    var v := JobsUrlValues(f, sortBy, page, limit);
    var params := UrlOf(v);
    UrlOfGet(v);
    NumberReadBack(QueryGet(params, "salary_min"), f.salaryRange.0, 1000);
    NumberReadBack(QueryGet(params, "salary_max"), f.salaryRange.1, 10000);
    NumberReadBack(QueryGet(params, "page"), Some(page), 1);

  }

  /** A job card's save state; the remaining fields of a job are carried unchanged and not modelled. */
  datatype Job = Job(id: string, title: string, isSaved: bool, savesCount: Option<int>)

  /** `(job.savesCount || 0)`. */
  function SavesOrZero(j: Job): int { j.savesCount.GetOr(0) }

  /** One job after the toggle: the server's verdict `saved` when the save request succeeded, otherwise
      the local flip of `isSaved`; the count moves by one in the matching direction. */
  function Toggled(j: Job, saved: Option<bool>): (r: Job)
    ensures r.id == j.id && r.title == j.title
    ensures r.isSaved == (if saved.Some? then saved.value else !j.isSaved)
    ensures r.savesCount == Some(SavesOrZero(j) + (if r.isSaved then 1 else -1))
  {
    var now := if saved.Some? then saved.value else !j.isSaved;
    j.(isSaved := now, savesCount := Some(SavesOrZero(j) + (if now then 1 else -1)))
  }

  /** The job list after `toggleSaveJob(jobId)`: only jobs with that id change. */
  function ToggleJobs(jobs: seq<Job>, jobId: string, saved: Option<bool>): (r: seq<Job>)
    ensures |r| == |jobs|
    ensures forall k | 0 <= k < |jobs| :: r[k] == if jobs[k].id == jobId then Toggled(jobs[k], saved) else jobs[k]
  {
    seq(|jobs|, k requires 0 <= k < |jobs| => if jobs[k].id == jobId then Toggled(jobs[k], saved) else jobs[k])
  }

  /** Two local toggles restore every job whose count was set. */
  lemma LocalToggleTwice(jobs: seq<Job>, jobId: string)
    requires forall k | 0 <= k < |jobs| :: jobs[k].savesCount.Some?
    ensures ToggleJobs(ToggleJobs(jobs, jobId, None), jobId, None) == jobs
  {
    var once := ToggleJobs(jobs, jobId, None);
    var twice := ToggleJobs(once, jobId, None);
    forall k | 0 <= k < |jobs| ensures twice[k] == jobs[k] {
      if jobs[k].id == jobId {
        assert once[k] == Toggled(jobs[k], None);
      }
    }
  }

  /** The state of the job listing that its handlers change. */
  class JobsPageState {
    var filters: JobFilters
    var sortBy: string
    var currentPage: Option<int>
    var jobs: seq<Job>

    /** The state's initial values, read from the page's query parameters. */
    constructor (searchParams: QueryParams)
      ensures filters == InitialFilters(searchParams) && sortBy == InitialSortBy(searchParams)
      ensures currentPage == InitialPage(searchParams) && jobs == []
    {
      filters := InitialFilters(searchParams);
      sortBy := InitialSortBy(searchParams);
      currentPage := InitialPage(searchParams);
      jobs := [];
    }

    function ActiveFilters(): nat
      reads this
    {
      ActiveFiltersCount(filters)
    }

    /** `clearFilters`: every filter control back to its default, and the sort back to "newest". */
    method ClearFilters()
      modifies this
      ensures filters == ClearedFilters && sortBy == "newest" && jobs == old(jobs) && currentPage == old(currentPage)
      ensures ActiveFilters() == 0
    {
      filters := ClearedFilters;
      sortBy := "newest";
    }

    /** `toggleSaveJob(jobId)`; `saved` is the server's answer, `None` when the request failed. */
    method ToggleSaveJob(jobId: string, saved: Option<bool>)
      modifies this
      ensures jobs == ToggleJobs(old(jobs), jobId, saved)
      ensures filters == old(filters) && sortBy == old(sortBy) && currentPage == old(currentPage)
    {
      jobs := ToggleJobs(jobs, jobId, saved);
    }
  }
}
