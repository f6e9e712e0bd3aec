/**
 * The contact form of the landing page (src/components/ContactSection.tsx):
 * its schema and the simulated submission that resets the form.
 *
 * The e-mail check of the schema library is the parameter `isEmail`.
 */
module ContactSection {
  import opened Wrappers

  datatype ContactForm = ContactForm(
    firstName: string,
    lastName: string,
    email: string,
    phone: Option<string>,
    course: string,
    message: string,
    newsletter: Option<bool>)

  /** The form's `defaultValues`, which `form.reset()` restores. */
  const DefaultForm: ContactForm := ContactForm("", "", "", Some(""), "", "", Some(false))

  /** The fields the schema can reject. */
  datatype Field = FirstName | LastName | Email | Course | Message

  /** `contactSchema`: the fields whose rule the value breaks. Phone and
      newsletter carry no rule. */
  function Errors(f: ContactForm, isEmail: string -> bool): (errs: set<Field>)
    ensures FirstName in errs <==> f.firstName == ""
    ensures LastName in errs <==> f.lastName == ""
    ensures Email in errs <==> !isEmail(f.email)
    ensures Course in errs <==> f.course == ""
    ensures Message in errs <==> f.message == ""
  {
    (if |f.firstName| < 1 then {FirstName} else {})
    + (if |f.lastName| < 1 then {LastName} else {})
    + (if !isEmail(f.email) then {Email} else {})
    + (if |f.course| < 1 then {Course} else {})
    + (if |f.message| < 1 then {Message} else {})
  }

  /** The schema accepts the form: first name, last name, course and message
      are non-empty and the address passes the e-mail check. */
  function FormValid(f: ContactForm, isEmail: string -> bool): (valid: bool)
    ensures valid <==>
              f.firstName != "" && f.lastName != "" && isEmail(f.email) && f.course != "" && f.message != ""
  {
    Errors(f, isEmail) == {}
  }

  /** An address the e-mail check refuses makes the form invalid. */
  lemma BadEmailInvalid(f: ContactForm, isEmail: string -> bool)
    requires !isEmail(f.email)
    ensures Email in Errors(f, isEmail) && !FormValid(f, isEmail)
  {
  }

  /** Phone and newsletter never decide validity. */
  lemma OptionalFieldsIrrelevant(f: ContactForm, isEmail: string -> bool,
                                 phone: Option<string>, newsletter: Option<bool>)
    ensures Errors(f.(phone := phone, newsletter := newsletter), isEmail) == Errors(f, isEmail)
  {
  }

  /** A form complete but for the first name gets exactly one error, on that field. */
  lemma OnlyFirstNameMissing(f: ContactForm, isEmail: string -> bool)
    requires f.firstName == "" && f.lastName != "" && isEmail(f.email) && f.course != "" && f.message != ""
    ensures Errors(f, isEmail) == {FirstName}
  {
  }

  datatype Toast = MessageSent | SendFailed

  /** The section's form state. */
  class ContactSection {
    var form: ContactForm
    var isSubmitting: bool
    var toast: Option<Toast>

    constructor ()
      ensures form == DefaultForm && !isSubmitting && toast == None
    {
      form := DefaultForm;
      isSubmitting := false;
      toast := None;
    }

    /** The submit button is disabled while a submission runs. */
    predicate SubmitDisabled()
      reads this
    {
      isSubmitting
    }

    /** The visitor edits the fields. */
    method Fill(f: ContactForm)
      modifies this
      ensures form == f && isSubmitting == old(isSubmitting) && toast == old(toast)
    {
      form := f;
    }

    /** `form.handleSubmit(onSubmit)` up to the simulated delay: the handler runs
        only for a valid form and starts by setting `isSubmitting`. */
    method Submit(isEmail: string -> bool) returns (started: bool)
      modifies this
      ensures started <==> FormValid(form, isEmail)
      ensures isSubmitting == (started || old(isSubmitting))
      ensures started ==> SubmitDisabled()
      ensures form == old(form) && toast == old(toast)
    {
      started := Errors(form, isEmail) == {};
      if started {
        isSubmitting := true;
      }
    }

    /** The rest of `handleSubmit`, once the delay has passed: a toast and
        `form.reset()`, or, when that code throws (`handlerThrew`), the error
        toast with the fields kept; `isSubmitting` is cleared on both paths. */
    method FinishSubmit(handlerThrew: bool)
      modifies this
      ensures !isSubmitting && !SubmitDisabled()
      ensures !handlerThrew ==> toast == Some(MessageSent) && form == DefaultForm
      ensures handlerThrew ==> toast == Some(SendFailed) && form == old(form)
    {
      if !handlerThrew {
        toast := Some(MessageSent);
        form := DefaultForm;
      } else {
        toast := Some(SendFailed);
      }
      isSubmitting := false;
    }
  }
}
