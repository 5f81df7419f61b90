/**
 * The application page: the step machine from resume choice to chat, the application created on submit,
 * the chat input, the status badge and the default-resume effect.
 */
module ApplyPage {
  import opened Common
  import opened Strings

  datatype Step = SelectResume | ApplicationForm | Success | Chat

  datatype Status = Pending | Viewed | Interview | Rejected | Accepted

  datatype Sender = Candidate | Employer

  datatype Message = Message(id: string, sender: Sender, content: string, timestamp: string, read: bool)

  datatype Application = Application(
    id: string, jobId: string, jobTitle: string, company: string, companyLogo: string, appliedDate: string,
    status: Status, lastMessage: Option<string>, unreadCount: int)

  datatype Job = Job(id: string, title: string, company: string, companyLogo: string)

  datatype Resume = Resume(id: string, isDefault: bool)

  /** The resumes offered; the first one is the default. */
  const Resumes := [Resume("1", true), Resume("2", false), Resume("3", false)]

  /** The job shown for the `job` query parameter: its id, or "1" when the parameter is missing or empty. */
  function JobFor(jobId: Option<string>): (j: Job)
    ensures jobId.Some? && jobId.value != "" ==> j.id == jobId.value
    ensures jobId.None? || jobId.value == "" ==> j.id == "1"
  {
    Job(if jobId.Some? && jobId.value != "" then jobId.value else "1", "Senior Frontend Developer",
        "TechCorp Tajikistan", "/placeholder.svg?height=60&width=60")
  }

  /** What the page shows: the error view whenever `job` is missing or empty, otherwise the current step. */
  datatype View = NotFound | StepView(step: Step)

  function CurrentView(jobId: Option<string>, step: Step): (v: View)
    ensures v == NotFound <==> jobId.None? || jobId.value == ""
    ensures v.StepView? ==> v.step == step
  {
    if jobId.None? || jobId.value == "" then NotFound else StepView(step)
  }

  /** `getStatusBadge(status)`'s label. */
  function StatusLabel(s: Status): (r: string)
    ensures r != ""
  {
    match s
    case Pending => "На рассмотрении"
    case Viewed => "Просмотрено"
    case Interview => "Собеседование"
    case Rejected => "Отклонено"
    case Accepted => "Принято"
  }

  /** Each status has its own label. */
  lemma StatusLabelsDistinct(s: Status, t: Status)
    requires s != t
    ensures StatusLabel(s) != StatusLabel(t)
  {
    assert StatusLabel(s)[..2] != StatusLabel(t)[..2] || |StatusLabel(s)| != |StatusLabel(t)|;
  }

  /** `resumes.find(r => r.isDefault)`. */
  function FindDefault(resumes: seq<Resume>): (r: Option<Resume>)
    ensures r.Some? ==> r.value in resumes && r.value.isDefault
    ensures r.None? ==> forall k | 0 <= k < |resumes| :: !resumes[k].isDefault
  {
    if resumes == [] then None else if resumes[0].isDefault then Some(resumes[0]) else FindDefault(resumes[1..])
  }

  /** The mount effect: it replaces the selection by the default resume, but only when a resume is already
      selected. */
  function DefaultResumeSelection(selectedResume: string, resumes: seq<Resume>): (r: string)
    ensures selectedResume == "" ==> r == ""
    ensures selectedResume != "" && FindDefault(resumes).Some? ==> r == FindDefault(resumes).value.id
  {
    if selectedResume != "" && |resumes| > 0 then
      match FindDefault(resumes)
      case Some(d) => d.id
      case None => selectedResume
    else selectedResume
  }

  /** The effect runs once, on mount, when the selection is still its initial `""`: it never selects the
      default resume, although one exists. */
  lemma DefaultResumeNeverSelected()
    ensures FindDefault(Resumes) == Some(Resume("1", true))
    ensures DefaultResumeSelection("", Resumes) == ""
  {
  }

  /** The application created by `handleSubmitApplication` at time `now`. */
  function NewApplication(job: Job, now: nat): (a: Application)
    ensures a.status == Pending && a.unreadCount == 0 && a.lastMessage.None?
    ensures a.jobId == job.id && a.jobTitle == job.title && a.company == job.company && a.companyLogo == job.companyLogo
    ensures a.id == NatToString(now)
  {
    Application(NatToString(now), job.id, job.title, job.company, job.companyLogo, "Только что", Pending, None, 0)
  }

  /** The page's state. */
  class ApplyPageState {
    const jobId: Option<string>
    var step: Step
    var selectedResume: string
    var currentApplication: Option<Application>
    var messages: seq<Message>
    var newMessage: string

    /** The initial state, after the mount effect has run. */
    constructor (jobId: Option<string>)
      ensures this.jobId == jobId && step == SelectResume && selectedResume == ""
      ensures currentApplication == None && messages == [] && newMessage == ""
    {
      this.jobId := jobId;
      step := SelectResume;
      selectedResume := DefaultResumeSelection("", Resumes);
      currentApplication := None;
      messages := [];
      newMessage := "";
    }

    function Shown(): View
      reads this
    {
      CurrentView(jobId, step)
    }

    method ChooseResume(id: string)
      modifies this
      ensures selectedResume == id && step == old(step) && messages == old(messages)
      ensures currentApplication == old(currentApplication) && newMessage == old(newMessage)
    {
      selectedResume := id;
    }

    /** "Continue": the button is disabled until a resume is selected. */
    method Continue()
      modifies this
      ensures step == if old(selectedResume) != "" then ApplicationForm else old(step)
      ensures selectedResume == old(selectedResume) && messages == old(messages)
      ensures currentApplication == old(currentApplication) && newMessage == old(newMessage)
    {
      if selectedResume != "" {
        step := ApplicationForm;
      }
    }

    /** "Back" on the application form. */
    method Back()
      modifies this
      ensures step == SelectResume && selectedResume == old(selectedResume) && messages == old(messages)
      ensures currentApplication == old(currentApplication) && newMessage == old(newMessage)
    {
      step := SelectResume;
    }

    /** `handleSubmitApplication`, once its one-second timer has fired at time `now`. */
    method SubmitApplication(now: nat)
      modifies this
      ensures step == Success && currentApplication == Some(NewApplication(JobFor(jobId), now))
      ensures selectedResume == old(selectedResume) && messages == old(messages) && newMessage == old(newMessage)
    {
      step := Success;
      currentApplication := Some(NewApplication(JobFor(jobId), now));
    }

    /** "Go to chat" on the success view. */
    method OpenChat()
      modifies this
      ensures step == Chat && selectedResume == old(selectedResume) && messages == old(messages)
      ensures currentApplication == old(currentApplication) && newMessage == old(newMessage)
    {
      step := Chat;
    }

    method EditMessage(text: string)
      modifies this
      ensures newMessage == text && step == old(step) && selectedResume == old(selectedResume)
      ensures messages == old(messages) && currentApplication == old(currentApplication)
    {
      newMessage := text;
    }

    /** `handleSendMessage` at time `now` (shown as `time`): a message that is not blank is appended as
        written, untrimmed, and the input clears; a blank one changes nothing. */
    method SendMessage(now: nat, time: string)
      modifies this
      ensures Trim(old(newMessage)) != "" ==>
        messages == old(messages) + [Message(NatToString(now), Candidate, old(newMessage), time, true)] && newMessage == ""
      ensures Trim(old(newMessage)) == "" ==> messages == old(messages) && newMessage == old(newMessage)
      ensures step == old(step) && selectedResume == old(selectedResume) && currentApplication == old(currentApplication)
    {
      if Trim(newMessage) != "" {
        messages := messages + [Message(NatToString(now), Candidate, newMessage, time, true)];
        newMessage := "";
      }
    }
  }

  /** Without a `job` parameter the error view is shown at every step the flow reaches. */
  method FlowWithoutJob(now: nat) returns (views: seq<View>)
    ensures |views| == 4 && forall k | 0 <= k < |views| :: views[k] == NotFound
  {
    var page := new ApplyPageState(None);
    page.ChooseResume("1");
    views := [page.Shown()];
    page.Continue();
    views := views + [page.Shown()];
    page.SubmitApplication(now);
    views := views + [page.Shown()];
    page.OpenChat();
    views := views + [page.Shown()];
  }
}
