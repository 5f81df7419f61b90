/**
 * The resume builder: the six-step navigation, the skill list with its add and remove handlers, and the
 * AI suggestion buttons of the personal section.
 */
module ResumeBuilder {
  import opened Common

  /** The ids of `steps`, in order. */
  const Steps: seq<string> := ["template", "personal", "experience", "education", "skills", "preview"]

  /** `steps.findIndex(step => step.id === id)`: the position of `id`, or -1. */
  function StepIndex(id: string): (r: int)
    ensures -1 <= r < |Steps|
    ensures r >= 0 ==> Steps[r] == id
    ensures r == -1 <==> id !in Steps
  {
    if id == "template" then 0
    else if id == "personal" then 1
    else if id == "experience" then 2
    else if id == "education" then 3
    else if id == "skills" then 4
    else if id == "preview" then 5
    else -1
  }

  /** The "Next" button: the following step, or the same step at the last one. */
  function NextStep(current: string): (r: string)
    ensures StepIndex(current) < |Steps| - 1 ==> r == Steps[StepIndex(current) + 1]
    ensures StepIndex(current) == |Steps| - 1 ==> r == current
  {
    var i := StepIndex(current);
    if i < |Steps| - 1 then Steps[i + 1] else current
  }

  /** The "Back" button: the preceding step, or the same step at the first one. */
  function PrevStep(current: string): (r: string)
    ensures StepIndex(current) > 0 ==> r == Steps[StepIndex(current) - 1]
    ensures StepIndex(current) <= 0 ==> r == current
  {
    var i := StepIndex(current);
    if i > 0 then Steps[i - 1] else current
  }

  /** Each step moves the index by exactly one, within 0..5. */
  lemma StepsMoveByOne(current: string)
    requires current in Steps
    ensures StepIndex(NextStep(current)) == if StepIndex(current) < 5 then StepIndex(current) + 1 else 5
    ensures StepIndex(PrevStep(current)) == if StepIndex(current) > 0 then StepIndex(current) - 1 else 0
  {
  }

  /** "Back" undoes "Next" everywhere but at the last step. */
  lemma BackUndoesNext(current: string)
    requires current in Steps && current != "preview"
    ensures PrevStep(NextStep(current)) == current
  {
    StepsMoveByOne(current);
    StepsMoveByOne(NextStep(current));
  }

  /** `resumeData.personal`. */
  datatype Personal = Personal(firstName: string, lastName: string, email: string, phone: string, city: string,
                               title: string, summary: string)

  const EmptyPersonal := Personal("", "", "", "", "", "", "")

  const SummarySuggestion := "Опытный специалист с 3+ годами работы в сфере IT. Специализируюсь на разработке веб-приложений с использованием современных технологий. Имею опыт работы в команде и самостоятельно над проектами различной сложности. Стремлюсь к постоянному профессиональному развитию и изучению новых технологий."
  const TitleSuggestion := "Frontend Developer"

  /** `handleAiSuggestion(field)`: `summary` and `title` take their canned text; any other field name
      changes nothing. */
  function AiSuggested(p: Personal, field: string): (r: Personal)
    ensures field == "summary" ==> r == p.(summary := SummarySuggestion)
    ensures field == "title" ==> r == p.(title := TitleSuggestion)
    ensures field != "summary" && field != "title" ==> r == p
  {
    if field == "summary" then p.(summary := SummarySuggestion)
    else if field == "title" then p.(title := TitleSuggestion)
    else p
  }

  /** `skillSuggestions`. */
  const SkillSuggestions: seq<string> := [
    "JavaScript", "React", "TypeScript", "Node.js", "Python", "Java", "PHP", "C#", "HTML/CSS", "Vue.js", "Angular",
    "SQL", "MongoDB", "PostgreSQL", "Docker", "AWS", "Git", "Figma", "Adobe Photoshop", "Adobe Illustrator", "Sketch",
    "InVision", "Google Analytics", "SEO", "SEM", "Social Media Marketing", "Content Marketing", "Project Management",
    "Agile", "Scrum", "Jira", "Confluence", "Slack", "Trello"]

  /** The state of the builder that the handlers change; the experience, education and language lists are
      not touched by the modelled handlers. */
  class ResumeBuilderPage {
    var currentStep: string
    var personal: Personal
    var skills: seq<string>
    const skillSuggestions: seq<string>

    /** The step is one of the six, and every skill-adding path checks membership first. */
    predicate Valid()
      reads this
    {
      currentStep in Steps && NoDuplicates(skills)
    }

    constructor ()
      ensures Valid() && currentStep == "template" && personal == EmptyPersonal && skills == []
      ensures skillSuggestions == SkillSuggestions
    {
      currentStep := "template";
      personal := EmptyPersonal;
      skills := [];
      skillSuggestions := SkillSuggestions;
    }

    /** `addSkill(skill)`: appends a non-empty skill that is not yet listed. */
    method AddSkill(skill: string)
      requires Valid()
      modifies this
      ensures Valid() && currentStep == old(currentStep) && personal == old(personal)
      ensures skills == if skill != "" && skill !in old(skills) then old(skills) + [skill] else old(skills)
    {
      if skill != "" && skill !in skills {
        skills := skills + [skill];
      }
    }

    /** `removeSkill(skill)`: every occurrence goes, the rest keep their order. */
    method RemoveSkill(skill: string)
      requires Valid()
      modifies this
      ensures Valid() && currentStep == old(currentStep) && personal == old(personal)
      ensures skills == Without(old(skills), skill)
    {
      WithoutKeepsNoDuplicates(skills, skill);
      skills := Without(skills, skill);
    }

    /** The skill input's `onChange`: only a value that is exactly one of the suggestions is added. */
    method SkillInputChange(value: string)
      requires Valid()
      modifies this
      ensures Valid() && currentStep == old(currentStep) && personal == old(personal)
      ensures value != "" && value in skillSuggestions && value !in old(skills) ==> skills == old(skills) + [value]
      ensures value == "" || value !in skillSuggestions || value in old(skills) ==> skills == old(skills)
    {
      if value != "" && value in skillSuggestions {
        AddSkill(value);
      }
    }

    /** `handleAiSuggestion(field)`. */
    method HandleAiSuggestion(field: string)
      requires Valid()
      modifies this
      ensures Valid() && currentStep == old(currentStep) && skills == old(skills)
      ensures personal == AiSuggested(old(personal), field)
    {
      personal := AiSuggested(personal, field);
    }

    method Next()
      requires Valid()
      modifies this
      ensures Valid() && personal == old(personal) && skills == old(skills)
      ensures currentStep == NextStep(old(currentStep))
    {
      currentStep := NextStep(currentStep);
    }

    method Back()
      requires Valid()
      modifies this
      ensures Valid() && personal == old(personal) && skills == old(skills)
      ensures currentStep == PrevStep(old(currentStep))
    {
      currentStep := PrevStep(currentStep);
    }
  }
}
