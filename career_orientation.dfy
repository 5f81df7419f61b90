/**
 * The career orientation questionnaire: ten questions in four categories, the scorer `analyzeResults`
 * (counters per answer, top picks by a stable descending sort, career rules with a fallback, the score),
 * and the page state that the answer, next, previous and restart handlers change.
 */
module CareerOrientation {
  import opened Common
  import opened Strings

  datatype Category = Personality | Interests | Skills | Values

  /** The category of each question; question `id` sits at index `id - 1`. */
  const QuestionCategories: seq<Category> :=
    [Values, Interests, Personality, Skills, Values, Personality, Interests, Interests, Personality, Values]

  const QuestionCount := 10

  /** `questions.find((q) => q.id === id)?.category`. */
  function QuestionCategory(id: int): (r: Option<Category>)
    ensures r.Some? <==> 1 <= id <= QuestionCount
  {
    if 1 <= id <= QuestionCount then Some(QuestionCategories[id - 1]) else None
  }

  /** The counter names of each category, in the order `categoryScores` declares them. */
  const PersonalityKeys := ["introvert", "extrovert", "balanced"]
  const InterestKeys := ["tech", "creative", "people", "analytical", "management"]
  const SkillKeys := ["technical", "creative", "communication", "analytical", "organizational"]
  const ValueKeys := ["money", "creativity", "helping", "stability", "growth"]

  function Keys(c: Category): seq<string> {
    match c
    case Personality => PersonalityKeys
    case Interests => InterestKeys
    case Skills => SkillKeys
    case Values => ValueKeys
  }

  /** The position (in `Keys(c)`) of the counter an answer increments; `None` is a `NaN` answer index. */
  function CounterFor(c: Category, answerIdx: Option<int>): (k: nat)
    ensures k < |Keys(c)|
    ensures c == Personality ==> (k == 0 <==> answerIdx in {Some(0), Some(3)})
    ensures c == Personality ==> (k == 1 <==> answerIdx in {Some(1), Some(4)})
    ensures c != Personality ==>
      (k == |Keys(c)| - 1 <==> !(answerIdx.Some? && 0 <= answerIdx.value <= 3))
  {
    match c
    case Personality =>
      if answerIdx == Some(0) || answerIdx == Some(3) then 0
      else if answerIdx == Some(1) || answerIdx == Some(4) then 1
      else 2
    case Interests =>
      if answerIdx == Some(0) then 3
      else if answerIdx == Some(1) then 1
      else if answerIdx == Some(2) then 2
      else if answerIdx == Some(3) then 0
      else 4
    case Skills =>
      if answerIdx == Some(0) then 3
      else if answerIdx == Some(1) then 1
      else if answerIdx == Some(2) then 2
      else if answerIdx == Some(3) then 0
      else 4
    case Values =>
      if answerIdx == Some(0) then 0
      else if answerIdx == Some(1) then 1
      else if answerIdx == Some(2) then 2
      else if answerIdx == Some(3) then 3
      else 4
  }

  // ---------------------------------------------------------------------------------------------
  // The counters

  /** `categoryScores`: one counter per key of each category. */
  datatype Scores = Scores(personality: seq<nat>, interests: seq<nat>, skills: seq<nat>, values: seq<nat>) {
    function Of(c: Category): seq<nat> {
      match c
      case Personality => personality
      case Interests => interests
      case Skills => skills
      case Values => values
    }

    predicate Sized() {
      |personality| == 3 && |interests| == 5 && |skills| == 5 && |values| == 5
    }

    /** The counters after `categoryScores[c][Keys(c)[k]]++`. */
    function Bump(c: Category, k: nat): (r: Scores)
      requires k < |Of(c)|
      ensures r.Of(c) == Of(c)[k := Of(c)[k] + 1]
      ensures forall d: Category | d != c :: r.Of(d) == Of(d)
    {
      match c
      case Personality => this.(personality := personality[k := personality[k] + 1])
      case Interests => this.(interests := interests[k := interests[k] + 1])
      case Skills => this.(skills := skills[k := skills[k] + 1])
      case Values => this.(values := values[k := values[k] + 1])
    }
  }

  const NoScores := Scores([0, 0, 0], [0, 0, 0, 0, 0], [0, 0, 0, 0, 0], [0, 0, 0, 0, 0])

  /** A question id with its answer, if one was given. */
  type Entry = (int, Option<string>)

  /** The effect of one entry: an answered question increments one counter of its category; an
      unanswered one, or an id that names no question, changes nothing. */
  function Record(s: Scores, entry: Entry): (r: Scores)
    requires s.Sized()
    ensures r.Sized()
  {
    match QuestionCategory(entry.0)
    case None => s
    case Some(c) => if entry.1.None? then s else s.Bump(c, CounterFor(c, ParseInt(entry.1.value)))
  }

  /** The counters after the entries, in order. */
  function Tally(entries: seq<Entry>): (s: Scores)
    ensures s.Sized()
  {
    if entries == [] then NoScores else Record(Tally(entries[..|entries| - 1]), entries[|entries| - 1])
  }

  function Sum(xs: seq<nat>): nat {
    if xs == [] then 0 else Sum(xs[..|xs| - 1]) + xs[|xs| - 1]
  }

  /** The entry answers a question of category `c`. */
  predicate Counts(entry: Entry, c: Category) {
    entry.1.Some? && QuestionCategory(entry.0) == Some(c)
  }

  /** How many entries answer a question of category `c`. */
  function AnsweredIn(entries: seq<Entry>, c: Category): nat {
    if entries == [] then 0
    else AnsweredIn(entries[..|entries| - 1], c) + (if Counts(entries[|entries| - 1], c) then 1 else 0)
  }

  lemma {:induction false} SumOfZeros(xs: seq<nat>)
    requires forall i | 0 <= i < |xs| :: xs[i] == 0
    ensures Sum(xs) == 0
    decreases |xs|
  {
    if xs != [] {
      SumOfZeros(xs[..|xs| - 1]);
    }
  }

  lemma {:induction false} SumBump(xs: seq<nat>, k: nat)
    requires k < |xs|
    ensures Sum(xs[k := xs[k] + 1]) == Sum(xs) + 1
    decreases |xs|
  {
    var ys := xs[k := xs[k] + 1];
    assert ys[..|ys| - 1] == if k < |xs| - 1 then xs[..|xs| - 1][k := xs[k] + 1] else xs[..|xs| - 1];
    if k < |xs| - 1 {
      SumBump(xs[..|xs| - 1], k);
    }
  }

  /** One increment adds one to the sum of its own category and nothing to the others. */
  lemma BumpCountsOnce(s: Scores, d: Category, k: nat, c: Category)
    requires k < |s.Of(d)|
    ensures Sum(s.Bump(d, k).Of(c)) == Sum(s.Of(c)) + (if d == c then 1 else 0)
  {
    if d == c {
      SumBump(s.Of(c), k);
    }
  }

  /** One entry adds one to its own category's counters and nothing to the others. */
  lemma RecordCountsOnce(s: Scores, entry: Entry, c: Category)
    requires s.Sized()
    ensures Sum(Record(s, entry).Of(c)) == Sum(s.Of(c)) + (if Counts(entry, c) then 1 else 0)
  {
    var question := QuestionCategory(entry.0);
    if question.Some? && entry.1.Some? {
      BumpCountsOnce(s, question.value, CounterFor(question.value, ParseInt(entry.1.value)), c);
    }
  }

  /** Each answer to an existing question increments exactly one counter, of its own category: a
      category's counters add up to the number of its questions answered. */
  lemma {:induction false} TallyPerCategory(entries: seq<Entry>, c: Category)
    ensures Sum(Tally(entries).Of(c)) == AnsweredIn(entries, c)
    decreases |entries|
  {
    if entries == [] {
      SumOfZeros(NoScores.Of(c));
    } else {
      var init := entries[..|entries| - 1];
      var last := entries[|entries| - 1];
      TallyPerCategory(init, c);
      RecordCountsOnce(Tally(init), last, c);
    }
  }

  /** One step of the scoring loop: the `switch` on the question's category and the answer index. */
  method CountAnswer(scores: Scores, category: Category, answerIdx: Option<int>) returns (r: Scores)
    requires scores.Sized()
    ensures r == scores.Bump(category, CounterFor(category, answerIdx))
  {
    var personality, interests, skills, values := scores.personality, scores.interests, scores.skills, scores.values;
    match category {
    case Personality =>
      if answerIdx == Some(0) || answerIdx == Some(3) { personality := personality[0 := personality[0] + 1]; }
      else if answerIdx == Some(1) || answerIdx == Some(4) { personality := personality[1 := personality[1] + 1]; }
      else { personality := personality[2 := personality[2] + 1]; }
    case Interests =>
      if answerIdx == Some(0) { interests := interests[3 := interests[3] + 1]; }
      else if answerIdx == Some(1) { interests := interests[1 := interests[1] + 1]; }
      else if answerIdx == Some(2) { interests := interests[2 := interests[2] + 1]; }
      else if answerIdx == Some(3) { interests := interests[0 := interests[0] + 1]; }
      else { interests := interests[4 := interests[4] + 1]; }
    case Skills =>
      if answerIdx == Some(0) { skills := skills[3 := skills[3] + 1]; }
      else if answerIdx == Some(1) { skills := skills[1 := skills[1] + 1]; }
      else if answerIdx == Some(2) { skills := skills[2 := skills[2] + 1]; }
      else if answerIdx == Some(3) { skills := skills[0 := skills[0] + 1]; }
      else { skills := skills[4 := skills[4] + 1]; }
    case Values =>
      if answerIdx == Some(0) { values := values[0 := values[0] + 1]; }
      else if answerIdx == Some(1) { values := values[1 := values[1] + 1]; }
      else if answerIdx == Some(2) { values := values[2 := values[2] + 1]; }
      else if answerIdx == Some(3) { values := values[3 := values[3] + 1]; }
      else { values := values[4 := values[4] + 1]; }
    }
    r := Scores(personality, interests, skills, values);
  }

  /** The scoring loop of `analyzeResults` over the entries of the answers: ids that name no question
      are skipped. */
  method AnalyzeScores(entries: seq<Entry>) returns (scores: Scores)
    ensures scores == Tally(entries)
  {
    scores := NoScores;
    var i := 0;
    while i < |entries|
      invariant 0 <= i <= |entries|
      invariant scores == Tally(entries[..i])
    {
      assert entries[..i + 1][..i] == entries[..i];
      var question := QuestionCategory(entries[i].0);
      if question.Some? && entries[i].1.Some? {
        var answerIdx := ParseInt(entries[i].1.value);
        scores := CountAnswer(scores, question.value, answerIdx);
      }
      i := i + 1;
    }
    assert entries[..i] == entries;
  }

  // ---------------------------------------------------------------------------------------------
  // Top picks: `Object.entries(...).sort(([, a], [, b]) => b - a)`, then the first one or two keys

  /** Among the indices below `n` other than `excluded`, the first one with the largest count: what a
      stable descending sort puts first. */
  function BestAmong(counts: seq<nat>, excluded: int, n: nat): (b: Option<nat>)
    requires n <= |counts|
    ensures b.None? <==> n == 0 || (n == 1 && excluded == 0)
    ensures b.Some? ==> b.value < n && b.value != excluded
    ensures b.Some? ==> forall j | 0 <= j < n && j != excluded :: counts[j] <= counts[b.value]
    ensures b.Some? ==> forall j | 0 <= j < b.value && j != excluded :: counts[j] < counts[b.value]
  {
    if n == 0 then None
    else
      var b := BestAmong(counts, excluded, n - 1);
      if n - 1 == excluded then b
      else if b.None? || counts[n - 1] > counts[b.value] then Some(n - 1)
      else b
  }

  /** The top key index. */
  function First(counts: seq<nat>): (i: nat)
    requires |counts| >= 1
    ensures i < |counts|
    ensures forall j | 0 <= j < |counts| :: counts[j] <= counts[i]
    ensures forall j | 0 <= j < i :: counts[j] < counts[i]
  {
    assert !(0 == -1);
    BestAmong(counts, -1, |counts|).value
  }

  /** The two top key indices, ties in declaration order. */
  function TopTwo(counts: seq<nat>): (r: (nat, nat))
    requires |counts| >= 2
    ensures r.0 == First(counts) && r.1 < |counts| && r.1 != r.0
    ensures forall j | 0 <= j < |counts| && j != r.0 :: counts[j] <= counts[r.1]
    ensures forall j | 0 <= j < r.1 && j != r.0 :: counts[j] < counts[r.1]
  {
    var first := First(counts);
    assert first == 0 || first == 1 ==> (1 - first) != first;
    (first, BestAmong(counts, first, |counts|).value)
  }

  /** The positions of the two top keys. */
  function TopPositions(counts: seq<nat>): (r: seq<nat>)
    requires |counts| >= 2
    ensures |r| == 2 && r[0] != r[1] && r[0] < |counts| && r[1] < |counts|
  {
    var top := TopTwo(counts);
    [top.0, top.1]
  }

  /** `.map(([key]) => key)`. */
  function Names(keys: seq<string>, positions: seq<nat>): (r: seq<string>)
    requires forall i | 0 <= i < |positions| :: positions[i] < |keys|
    ensures |r| == |positions|
  {
    seq(|positions|, i requires 0 <= i < |positions| => keys[positions[i]])
  }

  // ---------------------------------------------------------------------------------------------
  // Career rules

  /** A recommended career (its descriptive constant fields are not modelled). */
  datatype Career = Career(title: string, matchPercent: nat)

  /** A rule: the career is recommended when its interest and its skill are both among the top two. Keys
      are held as positions in `InterestKeys` and `SkillKeys`; as the names there are distinct, testing a
      position is testing `topInterests.includes(name)`. */
  datatype Rule = Rule(interest: nat, skill: nat, career: Career)

  const Rules := [
    Rule(0, 0, Career("Frontend Developer", 95)),  // tech, technical
    Rule(1, 1, Career("UX/UI Designer", 90)),      // creative, creative
    Rule(3, 3, Career("Data Analyst", 88)),        // analytical, analytical
    Rule(2, 2, Career("Project Manager", 85)),     // people, communication
    Rule(4, 4, Career("Marketing Manager", 82))]   // management, organizational

  const BusinessAnalyst := Career("Business Analyst", 75)

  /** The career of a rule that fires, as a list of zero or one. */
  function Fire(rule: Rule, topInterests: seq<nat>, topSkills: seq<nat>): seq<Career> {
    if rule.interest in topInterests && rule.skill in topSkills then [rule.career] else []
  }

  /** The careers of the rules that fire, in rule order. */
  function Fired(rules: seq<Rule>, topInterests: seq<nat>, topSkills: seq<nat>): (r: seq<Career>)
    ensures |r| <= |rules|
  {
    if rules == [] then [] else Fire(rules[0], topInterests, topSkills) + Fired(rules[1..], topInterests, topSkills)
  }

  lemma FiredOfFive(rules: seq<Rule>, topInterests: seq<nat>, topSkills: seq<nat>)
    requires |rules| == 5
    ensures Fired(rules, topInterests, topSkills) ==
      Fire(rules[0], topInterests, topSkills) + Fire(rules[1], topInterests, topSkills)
      + Fire(rules[2], topInterests, topSkills) + Fire(rules[3], topInterests, topSkills)
      + Fire(rules[4], topInterests, topSkills)
  {
    assert rules[4..][1..] == [];
    assert Fired(rules[4..], topInterests, topSkills) == Fire(rules[4], topInterests, topSkills);
    assert rules[3..][1..] == rules[4..];
    assert Fired(rules[3..], topInterests, topSkills) == Fire(rules[3], topInterests, topSkills) + Fired(rules[4..], topInterests, topSkills);
    assert rules[2..][1..] == rules[3..];
    assert Fired(rules[2..], topInterests, topSkills) == Fire(rules[2], topInterests, topSkills) + Fired(rules[3..], topInterests, topSkills);
    assert rules[1..][1..] == rules[2..];
    assert Fired(rules[1..], topInterests, topSkills) == Fire(rules[1], topInterests, topSkills) + Fired(rules[2..], topInterests, topSkills);
  }

  /** The recommendation list: the fired rules, then Business Analyst while fewer than three, at most five. */
  function Recommended(topInterests: seq<nat>, topSkills: seq<nat>): (r: seq<Career>)
    ensures 1 <= |r| <= 5
    ensures |Fired(Rules, topInterests, topSkills)| < 3 ==> r == Fired(Rules, topInterests, topSkills) + [BusinessAnalyst]
    ensures |Fired(Rules, topInterests, topSkills)| >= 3 ==>
      |r| <= |Fired(Rules, topInterests, topSkills)| && r == Fired(Rules, topInterests, topSkills)[..|r|]
  {
    var fired := Fired(Rules, topInterests, topSkills);
    var all := fired + (if |fired| < 3 then [BusinessAnalyst] else []);
    assert |fired| >= 3 ==> all == fired;
    all[..if |all| < 5 then |all| else 5]
  }

  /** One `if (topInterests.includes(..) && topSkills.includes(..)) recommendedCareers.push(..)`. */
  method PushIfFires(careers: seq<Career>, rule: Rule, topInterests: seq<nat>, topSkills: seq<nat>)
    returns (careers': seq<Career>)
    ensures careers' == careers + Fire(rule, topInterests, topSkills)
  {
    careers' := careers;
    if rule.interest in topInterests && rule.skill in topSkills {
      careers' := careers' + [rule.career];
    }
  }

  /** The pushes onto `recommendedCareers`: the five rules in order, the fallback, then `slice(0, 5)`. */
  method RecommendCareers(topInterests: seq<nat>, topSkills: seq<nat>) returns (careers: seq<Career>)
    ensures careers == Recommended(topInterests, topSkills)
  {
    var ti, ts := topInterests, topSkills;
    careers := [];
    careers := PushIfFires(careers, Rules[0], ti, ts);
    careers := PushIfFires(careers, Rules[1], ti, ts);
    careers := PushIfFires(careers, Rules[2], ti, ts);
    careers := PushIfFires(careers, Rules[3], ti, ts);
    careers := PushIfFires(careers, Rules[4], ti, ts);
    FiredOfFive(Rules, ti, ts);
    assert careers == Fired(Rules, ti, ts);
    if |careers| < 3 {
      careers := careers + [BusinessAnalyst];
    }
    careers := careers[..if |careers| < 5 then |careers| else 5];
  }

  /** Fired rules whose interest is one given name: the rules' interests are distinct, so at most one. */
  function FiredWith(rules: seq<Rule>, interest: nat, topSkills: seq<nat>): nat {
    if rules == [] then 0
    else (if rules[0].interest == interest && rules[0].skill in topSkills then 1 else 0)
         + FiredWith(rules[1..], interest, topSkills)
  }

  lemma {:induction false} FiredSplits(rules: seq<Rule>, a: nat, b: nat, topSkills: seq<nat>)
    requires a != b
    ensures |Fired(rules, [a, b], topSkills)| == FiredWith(rules, a, topSkills) + FiredWith(rules, b, topSkills)
    decreases |rules|
  {
    if rules != [] {
      FiredSplits(rules[1..], a, b, topSkills);
    }
  }

  lemma {:induction false} AtMostOneRulePerInterest(rules: seq<Rule>, interest: nat, topSkills: seq<nat>)
    requires forall i, j | 0 <= i < j < |rules| :: rules[i].interest != rules[j].interest
    ensures FiredWith(rules, interest, topSkills) <= 1
    ensures (forall i | 0 <= i < |rules| :: rules[i].interest != interest) ==> FiredWith(rules, interest, topSkills) == 0
    decreases |rules|
  {
    if rules != [] {
      AtMostOneRulePerInterest(rules[1..], interest, topSkills);
      if rules[0].interest == interest {
        assert forall i | 0 <= i < |rules[1..]| :: rules[1..][i].interest != interest by {
          forall i | 0 <= i < |rules[1..]| ensures rules[1..][i].interest != interest {
            assert rules[1..][i] == rules[i + 1];
          }
        }
      }
    }
  }

  /** With two distinct top interests at most two rules fire, so Business Analyst is always appended and
      the list holds one to three careers. */
  lemma FallbackAlwaysAdded(topInterests: seq<nat>, topSkills: seq<nat>)
    requires |topInterests| == 2 && topInterests[0] != topInterests[1]
    ensures |Fired(Rules, topInterests, topSkills)| <= 2
    ensures var r := Recommended(topInterests, topSkills);
      1 <= |r| <= 3 && r[|r| - 1] == BusinessAnalyst
  {
    var a, b := topInterests[0], topInterests[1];
    assert topInterests == [a, b];
    FiredSplits(Rules, a, b, topSkills);
    AtMostOneRulePerInterest(Rules, a, topSkills);
    AtMostOneRulePerInterest(Rules, b, topSkills);
  }

  // ---------------------------------------------------------------------------------------------
  // analyzeResults

  /** What `analyzeResults` returns. */
  datatype TestResult = TestResult(
    personality: string, interests: seq<string>, skills: seq<string>, values: seq<string>,
    recommendedCareers: seq<Career>, score: nat)

  /** `Object.entries(answers)` for answers keyed by question ids, as one entry per question in id order
      (JavaScript lists integer keys in ascending order) with `None` where no answer was given. */
  function AnswerEntries(answers: map<int, string>): (r: seq<Entry>)
    ensures |r| == QuestionCount
    ensures forall k | 0 <= k < |r| :: r[k].0 == k + 1 && (r[k].1.Some? <==> k + 1 in answers)
    ensures forall k | 0 <= k < |r| && r[k].1.Some? :: r[k].1.value == answers[k + 1]
  {
    seq(QuestionCount, k requires 0 <= k < QuestionCount => (k + 1, if k + 1 in answers then Some(answers[k + 1]) else None))
  }

  /** Keys drawn from `1..n` are at most `n`. */
  lemma {:induction false} KeysBound(keys: set<int>, n: nat)
    requires forall k | k in keys :: 1 <= k <= n
    ensures |keys| <= n
    decreases n
  {
    if n > 0 {
      KeysBound(keys - {n}, n - 1);
      assert keys <= (keys - {n}) + {n};
    } else {
      assert forall k :: k !in keys;
      assert keys == {};
    }
  }

  /** `Math.round((answered / questions.length) * 100)`: ten points per answered question. */
  function Score(answered: nat): nat { 10 * answered }

  /** The result for the counters and the number of answers: the top picks, the careers, the score. */
  function Summary(s: Scores, answered: nat): TestResult
    requires s.Sized()
  {
    var interests := TopPositions(s.interests);
    var skills := TopPositions(s.skills);
    TestResult(PersonalityKeys[First(s.personality)], Names(InterestKeys, interests), Names(SkillKeys, skills),
               Names(ValueKeys, TopPositions(s.values)), Recommended(interests, skills), Score(answered))
  }

  /** The reference result for the answers given. */
  function Analysis(answers: map<int, string>): TestResult {
    Summary(Tally(AnswerEntries(answers)), |answers|)
  }

  /** The part of `analyzeResults` after the scoring loop. */
  method Summarize(s: Scores, answered: nat) returns (result: TestResult)
    requires s.Sized()
    ensures result == Summary(s, answered)
  {
    var personalityType := PersonalityKeys[First(s.personality)];
    var topInterests := TopPositions(s.interests);
    var topSkills := TopPositions(s.skills);
    var topValues := TopPositions(s.values);
    var careers := RecommendCareers(topInterests, topSkills);
    result := TestResult(personalityType, Names(InterestKeys, topInterests), Names(SkillKeys, topSkills),
                         Names(ValueKeys, topValues), careers, Score(answered));
  }

  /** `analyzeResults`. */
  method AnalyzeResults(answers: map<int, string>) returns (result: TestResult)
    ensures result == Analysis(answers)
  {
    var s := AnalyzeScores(AnswerEntries(answers));
    result := Summarize(s, |answers|);
  }

  /** The result always has two distinct top interests and skills, one to three careers ending in Business
      Analyst, and a score of at most 100. */
  lemma AnalysisShape(answers: map<int, string>)
    requires forall id | id in answers :: 1 <= id <= QuestionCount
    ensures var r := Analysis(answers);
      |r.interests| == 2 && r.interests[0] != r.interests[1]
      && |r.skills| == 2 && r.skills[0] != r.skills[1]
      && 1 <= |r.recommendedCareers| <= 3 && r.recommendedCareers[|r.recommendedCareers| - 1] == BusinessAnalyst
      && r.score <= 100
  {
    KeysBound(answers.Keys, QuestionCount);
    SummaryShape(Tally(AnswerEntries(answers)), |answers|);
  }

  lemma SummaryShape(s: Scores, answered: nat)
    requires s.Sized()
    ensures var r := Summary(s, answered);
      |r.interests| == 2 && r.interests[0] != r.interests[1]
      && |r.skills| == 2 && r.skills[0] != r.skills[1]
      && 1 <= |r.recommendedCareers| <= 3 && r.recommendedCareers[|r.recommendedCareers| - 1] == BusinessAnalyst
      && r.score == 10 * answered
  {
    var ti := TopPositions(s.interests);
    var ts := TopPositions(s.skills);
    assert InterestKeys[ti[0]] != InterestKeys[ti[1]];
    assert SkillKeys[ts[0]] != SkillKeys[ts[1]];
    FallbackAlwaysAdded(ti, ts);
  }

  // ---------------------------------------------------------------------------------------------
  // The page state

  datatype Step = Intro | Test | Results

  class CareerTestPage {
    var currentStep: Step
    var currentQuestion: int
    var answers: map<int, string>
    var testResult: Option<TestResult>

    /** The question index stays on a question, and answers are keyed by question ids. */
    predicate Valid()
      reads this
    {
      0 <= currentQuestion < QuestionCount && forall id | id in answers :: 1 <= id <= QuestionCount
    }

    constructor ()
      ensures Valid()
      ensures currentStep == Intro && currentQuestion == 0 && answers == map[] && testResult == None
    {
      currentStep := Intro;
      currentQuestion := 0;
      answers := map[];
      testResult := None;
    }

    /** `handleAnswer(questionId, answerIndex)`, called with the shown question's id. */
    method HandleAnswer(questionId: int, answerIndex: string)
      requires Valid() && 1 <= questionId <= QuestionCount
      modifies this
      ensures Valid()
      ensures answers == old(answers)[questionId := answerIndex]
      ensures currentStep == old(currentStep) && currentQuestion == old(currentQuestion)
      ensures testResult == old(testResult)
    {
      answers := answers[questionId := answerIndex];
    }

    /** `nextQuestion`: advance, or on the last question compute the result and show it. */
    method NextQuestion()
      requires Valid()
      modifies this
      ensures Valid() && answers == old(answers)
      ensures old(currentQuestion) < QuestionCount - 1 ==>
        currentQuestion == old(currentQuestion) + 1 && currentStep == old(currentStep) && testResult == old(testResult)
      ensures old(currentQuestion) == QuestionCount - 1 ==>
        currentQuestion == old(currentQuestion) && currentStep == Results && testResult == Some(Analysis(answers))
    {
      if currentQuestion < QuestionCount - 1 {
        currentQuestion := currentQuestion + 1;
      } else {
        var result := AnalyzeResults(answers);
        testResult := Some(result);
        currentStep := Results;
      }
    }

    /** `prevQuestion`: back one question, never below the first. */
    method PrevQuestion()
      requires Valid()
      modifies this
      ensures Valid() && answers == old(answers) && currentStep == old(currentStep) && testResult == old(testResult)
      ensures currentQuestion == if old(currentQuestion) > 0 then old(currentQuestion) - 1 else 0
    {
      if currentQuestion > 0 {
        currentQuestion := currentQuestion - 1;
      }
    }

    /** `restartTest`. */
    method RestartTest()
      modifies this
      ensures Valid()
      ensures currentStep == Intro && currentQuestion == 0 && answers == map[] && testResult == None
    {
      currentStep := Intro;
      currentQuestion := 0;
      answers := map[];
      testResult := None;
    }
  }
}
