/**
 * The job posting form: the skill and screening-question lists with their add and remove handlers,
 * the popular-benefit badges, and the salary line of the preview.
 */
module PostJob {
  import opened Common
  import opened Strings

  /** A screening question; `id` is the `Date.now()` of its creation. */
  datatype Question = Question(id: int, text: string, required: bool)

  /** The salary inputs: the amounts are the raw text of their fields. */
  datatype SalaryInput = SalaryInput(min: string, max: string, currency: string, negotiable: bool)

  /** `jobData`. */
  datatype JobData = JobData(
    title: string, company: string, location: string, category: string, jobType: string, experience: string,
    salary: SalaryInput, description: string, requirements: string, benefits: string,
    skills: seq<string>, questions: seq<Question>)

  const EmptyJobData := JobData("", "", "", "", "", "", SalaryInput("", "", "TJS", false), "", "", "", [], [])

  /** `xs.filter((_, i) => i !== index)`. */
  function RemovedAt(xs: seq<string>, index: int): (r: seq<string>)
    ensures 0 <= index < |xs| ==> r == xs[..index] + xs[index + 1..]
    ensures !(0 <= index < |xs|) ==> r == xs
    decreases |xs|
  {
    if xs == [] then []
    else (if index == 0 then [] else [xs[0]]) + RemovedAt(xs[1..], index - 1)
  }

  /** Removing one entry from a list without duplicates leaves one without duplicates. */
  lemma RemovedAtKeepsNoDuplicates(xs: seq<string>, index: int)
    requires NoDuplicates(xs)
    ensures NoDuplicates(RemovedAt(xs, index))
  {
    if 0 <= index < |xs| {
      var r := RemovedAt(xs, index);
      forall i, j | 0 <= i < j < |r|
        ensures r[i] != r[j]
      {
        var i' := if i < index then i else i + 1;
        var j' := if j < index then j else j + 1;
        assert r[i] == xs[i'] && r[j] == xs[j'];
      }
    }
  }

  /** `questions.filter(q => q.id !== id)`. */
  function QuestionsWithout(qs: seq<Question>, id: int): (r: seq<Question>)
    ensures |r| <= |qs|
    ensures forall q :: q in r <==> q in qs && q.id != id
  {
    if qs == [] then [] else (if qs[0].id != id then [qs[0]] else []) + QuestionsWithout(qs[1..], id)
  }

  /** Removing a question keeps the others in order. */
  lemma {:induction false} QuestionsWithoutConcat(a: seq<Question>, b: seq<Question>, id: int)
    ensures QuestionsWithout(a + b, id) == QuestionsWithout(a, id) + QuestionsWithout(b, id)
    decreases |a|
  {
    if a == [] {
      assert a + b == b;
    } else {
      assert (a + b)[1..] == a[1..] + b;
      QuestionsWithoutConcat(a[1..], b, id);
    }
  }

  /** A popular-benefit badge: the benefit as a bullet line after the current text, or alone when the text
      is empty. */
  function BenefitAppended(current: string, benefit: string): (r: string)
    ensures current == "" ==> r == "• " + benefit
    ensures current != "" ==> |current| <= |r| && r[..|current|] == current && r[|current|..] == "\n• " + benefit
  {
    if current != "" then current + "\n• " + benefit else "• " + benefit
  }

  /** The preview's salary line: absent when neither amount is filled in; both amounts when both are. */
  function PreviewSalary(s: SalaryInput): (r: Option<string>)
    ensures r.None? <==> s.min == "" && s.max == ""
    ensures s.min != "" && s.max != "" ==> r == Some(s.min + " - " + s.max + " TJS")
    ensures (s.min == "") != (s.max == "") ==> r == Some(if s.negotiable then "Договорная" else "Не указана")
  {
    if s.min == "" && s.max == "" then None
    else if s.min != "" && s.max != "" then Some(s.min + " - " + s.max + " TJS")
    else if s.negotiable then Some("Договорная")
    else Some("Не указана")
  }

  /** The state of the form that the handlers change. */
  class PostJobPage {
    var jobData: JobData
    var newSkill: string
    var newQuestion: string

    /** Every path that adds a skill checks membership first, so the list has no duplicates. */
    predicate Valid()
      reads this
    {
      NoDuplicates(jobData.skills)
    }

    constructor ()
      ensures Valid() && jobData == EmptyJobData && newSkill == "" && newQuestion == ""
    {
      jobData := EmptyJobData;
      newSkill := "";
      newQuestion := "";
    }

    /** `addSkill`: appends the trimmed input when it is non-empty and new, and only then clears the input. */
    method AddSkill()
      requires Valid()
      modifies this
      ensures Valid() && newQuestion == old(newQuestion)
      ensures var t := Trim(old(newSkill));
        if t != "" && t !in old(jobData.skills) then
          jobData == old(jobData).(skills := old(jobData.skills) + [t]) && newSkill == ""
        else jobData == old(jobData) && newSkill == old(newSkill)
    {
      var t := Trim(newSkill);
      if t != "" && t !in jobData.skills {
        jobData := jobData.(skills := jobData.skills + [t]);
        newSkill := "";
      }
    }

    /** A popular-skill badge: appends the skill unless it is already listed; the input is left alone. */
    method AddPopularSkill(skill: string)
      requires Valid()
      modifies this
      ensures Valid() && newSkill == old(newSkill) && newQuestion == old(newQuestion)
      ensures skill !in old(jobData.skills) ==> jobData == old(jobData).(skills := old(jobData.skills) + [skill])
      ensures skill in old(jobData.skills) ==> jobData == old(jobData)
    {
      if skill !in jobData.skills {
        jobData := jobData.(skills := jobData.skills + [skill]);
      }
    }

    /** `removeSkill(index)`. */
    method RemoveSkill(index: int)
      requires Valid()
      modifies this
      ensures Valid() && newSkill == old(newSkill) && newQuestion == old(newQuestion)
      ensures jobData == old(jobData).(skills := RemovedAt(old(jobData.skills), index))
    {
      RemovedAtKeepsNoDuplicates(jobData.skills, index);
      jobData := jobData.(skills := RemovedAt(jobData.skills, index));
    }

    /** `addQuestion` at time `now`: a non-blank input becomes an optional question and the input clears. */
    method AddQuestion(now: int)
      requires Valid()
      modifies this
      ensures Valid() && newSkill == old(newSkill)
      ensures var t := Trim(old(newQuestion));
        if t != "" then
          jobData == old(jobData).(questions := old(jobData.questions) + [Question(now, t, false)]) && newQuestion == ""
        else jobData == old(jobData) && newQuestion == old(newQuestion)
    {
      var t := Trim(newQuestion);
      if t != "" {
        jobData := jobData.(questions := jobData.questions + [Question(now, t, false)]);
        newQuestion := "";
      }
    }

    /** `removeQuestion(id)`: every question with that id goes. */
    method RemoveQuestion(id: int)
      requires Valid()
      modifies this
      ensures Valid() && newSkill == old(newSkill) && newQuestion == old(newQuestion)
      ensures jobData == old(jobData).(questions := QuestionsWithout(old(jobData.questions), id))
    {
      jobData := jobData.(questions := QuestionsWithout(jobData.questions, id));
    }

    /** A popular-benefit badge. */
    method AddBenefit(benefit: string)
      requires Valid()
      modifies this
      ensures Valid() && newSkill == old(newSkill) && newQuestion == old(newQuestion)
      ensures jobData == old(jobData).(benefits := BenefitAppended(old(jobData.benefits), benefit))
    {
      jobData := jobData.(benefits := BenefitAppended(jobData.benefits, benefit));
    }
  }
}
