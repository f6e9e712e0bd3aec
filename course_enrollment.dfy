/**
 * The enrollment page (src/pages/CourseEnrollment.tsx): the enrollment form's
 * schema, the three-step wizard and the simulated submission.
 *
 * The e-mail check of the schema library is the parameter `isEmail`.
 */
module CourseEnrollment {
  import opened Wrappers
  import CoursesSection

  datatype EnrollmentForm = EnrollmentForm(
    firstName: string,
    lastName: string,
    email: string,
    phone: string,
    experience: string,
    motivation: string,
    hasLaptop: bool,
    canCommitTime: bool,
    agreeTerms: bool,
    hearAboutUs: Option<string>,
    linkedinProfile: Option<string>,
    githubProfile: Option<string>)

  /** The form's `defaultValues`. */
  const DefaultForm: EnrollmentForm :=
    EnrollmentForm("", "", "", "", "", "", false, false, false, Some(""), Some(""), Some(""))

  /** The fields the schema can reject. */
  datatype Field = FirstName | LastName | Email | Phone | Experience | Motivation | AgreeTerms

  /** `enrollmentSchema`: the fields whose rule the value breaks. The two other
      checkboxes and the three optional fields carry no rule. */
  function Errors(f: EnrollmentForm, isEmail: string -> bool): (errs: set<Field>)
    ensures FirstName in errs <==> f.firstName == ""
    ensures LastName in errs <==> f.lastName == ""
    ensures Email in errs <==> !isEmail(f.email)
    ensures Phone in errs <==> |f.phone| < 10
    ensures Experience in errs <==> f.experience == ""
    ensures Motivation in errs <==> |f.motivation| < 50
    ensures AgreeTerms in errs <==> !f.agreeTerms
  {
    (if |f.firstName| < 1 then {FirstName} else {})
    + (if |f.lastName| < 1 then {LastName} else {})
    + (if !isEmail(f.email) then {Email} else {})
    + (if |f.phone| < 10 then {Phone} else {})
    + (if |f.experience| < 1 then {Experience} else {})
    + (if |f.motivation| < 50 then {Motivation} else {})
    + (if !f.agreeTerms then {AgreeTerms} else {})
  }

  /** The schema accepts the form: names and experience non-empty, the address
      passes the e-mail check, a phone of at least 10 and a motivation of at
      least 50 characters, and the terms agreed. */
  function FormValid(f: EnrollmentForm, isEmail: string -> bool): (valid: bool)
    ensures valid <==>
              |f.firstName| >= 1 && |f.lastName| >= 1 && isEmail(f.email) && |f.phone| >= 10
              && |f.experience| >= 1 && |f.motivation| >= 50 && f.agreeTerms
  {
    Errors(f, isEmail) == {}
  }

  /** Without the terms agreed the form is invalid, whatever the other fields hold. */
  lemma TermsRequired(f: EnrollmentForm, isEmail: string -> bool)
    requires !f.agreeTerms
    ensures AgreeTerms in Errors(f, isEmail) && !FormValid(f, isEmail)
  {
  }

  /** The optional fields and the two other checkboxes never decide validity. */
  lemma OptionalFieldsIrrelevant(f: EnrollmentForm, isEmail: string -> bool,
                                 hasLaptop: bool, canCommitTime: bool,
                                 hearAboutUs: Option<string>, linkedinProfile: Option<string>,
                                 githubProfile: Option<string>)
    ensures Errors(f.(hasLaptop := hasLaptop, canCommitTime := canCommitTime, hearAboutUs := hearAboutUs,
                      linkedinProfile := linkedinProfile, githubProfile := githubProfile), isEmail)
         == Errors(f, isEmail)
  {
  }

  // ---------------------------------------------------------------------------
  // The wizard

  const FirstStep: int := 1
  const LastStep: int := 3

  /** `nextStep`: one step on, unless already on the last. */
  function StepAfterNext(step: int): (r: int)
    ensures step < LastStep ==> r == step + 1
    ensures step >= LastStep ==> r == step
  {
    if step < LastStep then step + 1 else step
  }

  /** `prevStep`: one step back, unless already on the first. */
  function StepAfterPrev(step: int): (r: int)
    ensures step > FirstStep ==> r == step - 1
    ensures step <= FirstStep ==> r == step
  {
    if step > FirstStep then step - 1 else step
  }

  /** The two steps keep the counter within 1..3 and undo each other inside it. */
  lemma StepsStayInRange(step: int)
    requires FirstStep <= step <= LastStep
    ensures FirstStep <= StepAfterNext(step) <= LastStep
    ensures FirstStep <= StepAfterPrev(step) <= LastStep
    ensures step < LastStep ==> StepAfterPrev(StepAfterNext(step)) == step
    ensures step > FirstStep ==> StepAfterNext(StepAfterPrev(step)) == step
  {
  }

  const EnrolledQuery: string := "?enrolled=true"

  /** The redirect after enrolling: `/course/${course?.id}?enrolled=true`, the
      course's own page with the enrolled flag as its query. */
  function EnrolledPath(id: string): (path: string)
    ensures exists k :: 0 <= k <= |path| && path[..k] == CoursesSection.CourseLink(id) && path[k..] == EnrolledQuery
  {
    var link := CoursesSection.CourseLink(id);
    assert (link + EnrolledQuery)[..|link|] == link;
    link + EnrolledQuery
  }

  /** The redirect leads back to the page of the course enrolled in: the path
      before the query determines the course. */
  lemma EnrolledPathInjective(a: string, b: string)
    requires EnrolledPath(a) == EnrolledPath(b)
    ensures a == b
  {
    var pa := CoursesSection.CourseLink(a);
    var pb := CoursesSection.CourseLink(b);
    assert EnrolledPath(a) == pa + EnrolledQuery;
    assert EnrolledPath(b) == pb + EnrolledQuery;
    assert |pa| == |pb|;
    assert pa == EnrolledPath(a)[..|pa|];
    assert pb == EnrolledPath(b)[..|pb|];
    CoursesSection.CourseLinkInjective(a, b);
  }

  datatype Toast = EnrollmentSuccessful | EnrollmentFailed

  /** The page's state once the course was found. */
  class EnrollmentPage {
    const courseId: string
    var currentStep: int
    var isSubmitting: bool
    /** The location the page has scheduled a redirect to. */
    var redirect: Option<string>
    var toast: Option<Toast>

    ghost predicate Valid()
      reads this
    {
      FirstStep <= currentStep <= LastStep
    }

    constructor (courseId: string)
      ensures Valid() && this.courseId == courseId
      ensures currentStep == FirstStep && !isSubmitting && redirect == None && toast == None
    {
      this.courseId := courseId;
      currentStep := 1;
      isSubmitting := false;
      redirect := None;
      toast := None;
    }

    /** The "Complete Enrollment" button is disabled while a submission runs. */
    predicate SubmitDisabled()
      reads this
    {
      isSubmitting
    }

    method NextStep()
      requires Valid()
      modifies this
      ensures Valid() && currentStep == StepAfterNext(old(currentStep))
      ensures isSubmitting == old(isSubmitting) && redirect == old(redirect) && toast == old(toast)
    {
      if currentStep < 3 {
        currentStep := currentStep + 1;
      }
    }

    method PrevStep()
      requires Valid()
      modifies this
      ensures Valid() && currentStep == StepAfterPrev(old(currentStep))
      ensures isSubmitting == old(isSubmitting) && redirect == old(redirect) && toast == old(toast)
    {
      if currentStep > 1 {
        currentStep := currentStep - 1;
      }
    }

    /** `form.handleSubmit(handleSubmit)` up to the simulated delay: the handler
        runs only for a valid form and starts by setting `isSubmitting`. */
    method Submit(f: EnrollmentForm, isEmail: string -> bool) returns (started: bool)
      modifies this
      ensures started <==> FormValid(f, isEmail)
      ensures isSubmitting == (started || old(isSubmitting))
      ensures started ==> SubmitDisabled()
      ensures currentStep == old(currentStep) && redirect == old(redirect) && toast == old(toast)
    {
      started := Errors(f, isEmail) == {};
      if started {
        isSubmitting := true;
      }
    }

    /** The rest of `handleSubmit`, once the delay has passed: a toast and the
        redirect, or, when that code throws (`handlerThrew`), the failure toast;
        `isSubmitting` is cleared on both paths. */
    method FinishSubmit(handlerThrew: bool)
      modifies this
      ensures !isSubmitting && !SubmitDisabled()
      ensures !handlerThrew ==> toast == Some(EnrollmentSuccessful) && redirect == Some(EnrolledPath(courseId))
      ensures handlerThrew ==> toast == Some(EnrollmentFailed) && redirect == old(redirect)
      ensures currentStep == old(currentStep)
    {
      if !handlerThrew {
        toast := Some(EnrollmentSuccessful);
        redirect := Some(EnrolledPath(courseId));
      } else {
        toast := Some(EnrollmentFailed);
      }
      isSubmitting := false;
    }
  }
}
