/** The contact page, app/contact-us/page.jsx: `validate` builds one error
    per bad field, and `handleSubmit` posts only a valid form and clears it
    after a successful reply. */
module ContactPage {
  import opened Common
  import opened Contact

  /** The error `validate` records for the email field, if any. */
  function EmailError(email: string): Option<string> {
    if IsBlank(email) then Some("Email required")
    else if !ValidEmail(email) then Some("Invalid email")
    else None
  }

  /** `!message.trim() || message.trim().length < 10`: fewer than ten
      characters once trimmed (the blank case is one of them). */
  predicate ShortMessage(message: string) {
    |Trim(message)| < MinMessageLength
  }

  /** The keys of the error map. */
  datatype Field = NameField | EmailField | SubjectField | MessageField

  /** The page's form state and its error map. */
  class ContactFormState {
    var name: string
    var email: string
    var orderNumber: string
    var subject: string
    var message: string
    var errors: map<Field, string>

    constructor ()
      ensures name == "" && email == "" && orderNumber == "" && subject == "" && message == ""
      ensures errors == map[]
    {
      name, email, orderNumber, subject, message := "", "", "", "", "";
      errors := map[];
    }

    /** Every field empty and no error shown, as after a successful send. */
    predicate IsCleared()
      reads this
    {
      name == "" && email == "" && orderNumber == "" && subject == "" && message == "" && errors == map[]
    }

    /** `validate`: each field gets its own error independently, and the
        form is valid iff no field has one. */
    method Validate() returns (valid: bool)
      modifies this`errors
      ensures (NameField in errors <==> IsBlank(name)) && (NameField in errors ==> errors[NameField] == "Name required")
      ensures (EmailField in errors <==> EmailError(email).Some?) &&
              (EmailField in errors ==> errors[EmailField] == EmailError(email).value)
      ensures (SubjectField in errors <==> IsBlank(subject)) &&
              (SubjectField in errors ==> errors[SubjectField] == "Subject required")
      ensures (MessageField in errors <==> ShortMessage(message)) &&
              (MessageField in errors ==> errors[MessageField] == "Minimum 10 characters")
      ensures valid <==> errors == map[]
      ensures valid <==> !IsBlank(name) && EmailError(email).None? && !IsBlank(subject) && !ShortMessage(message)
    {
      var nameMissing := IsBlank(name);
      var emailError := EmailError(email);
      var subjectMissing := IsBlank(subject);
      var messageShort := ShortMessage(message);
      errors := CollectErrors(nameMissing, emailError, subjectMissing, messageShort);
      valid := !nameMissing && emailError.None? && !subjectMissing && !messageShort;
    }

    /** `handleSubmit`: an invalid form is not posted; `replyOk` is the
        server's answer, and only a successful one clears the form. */
    method Submit(replyOk: bool) returns (sent: bool)
      modifies this
      ensures sent <==>
        !IsBlank(old(name)) && EmailError(old(email)).None? && !IsBlank(old(subject)) && !ShortMessage(old(message))
      ensures sent ==> ContactError(ContactRequest(Some(old(name)), Some(old(email)), Some(old(orderNumber)),
                                                   Some(old(subject)), Some(old(message)))).None?
      ensures sent && replyOk ==> IsCleared()
      ensures sent ==> errors == map[]
      ensures !sent ==>
        (NameField in errors <==> IsBlank(old(name))) &&
        (NameField in errors ==> errors[NameField] == "Name required") &&
        (EmailField in errors <==> EmailError(old(email)).Some?) &&
        (EmailField in errors ==> errors[EmailField] == EmailError(old(email)).value) &&
        (SubjectField in errors <==> IsBlank(old(subject))) &&
        (SubjectField in errors ==> errors[SubjectField] == "Subject required") &&
        (MessageField in errors <==> ShortMessage(old(message))) &&
        (MessageField in errors ==> errors[MessageField] == "Minimum 10 characters")
      ensures !(sent && replyOk) ==>
        name == old(name) && email == old(email) && orderNumber == old(orderNumber) &&
        subject == old(subject) && message == old(message)
    {
      var valid := Validate();
      if !valid {
        return false;
      }
      PageValidPassesRoute(name, email, subject, message, orderNumber);
      sent := true;
      if replyOk {
        Clear();
      }
    }

    /** `setForm` with every field empty, and `setErrors({})`. */
    method Clear()
      modifies this
      ensures IsCleared()
    {
      name, email, orderNumber, subject, message := "", "", "", "", "";
      errors := map[];
    }
  }

  /** The object `e` of `validate`, given the outcome of each field's check:
      one key per failed check, holding that check's text. */
  method CollectErrors(nameMissing: bool, emailError: Option<string>, subjectMissing: bool, messageShort: bool)
    returns (e: map<Field, string>)
    ensures (NameField in e <==> nameMissing) && (nameMissing ==> e[NameField] == "Name required")
    ensures (EmailField in e <==> emailError.Some?) && (emailError.Some? ==> e[EmailField] == emailError.value)
    ensures (SubjectField in e <==> subjectMissing) && (subjectMissing ==> e[SubjectField] == "Subject required")
    ensures (MessageField in e <==> messageShort) && (messageShort ==> e[MessageField] == "Minimum 10 characters")
    ensures e == map[] <==> !nameMissing && emailError.None? && !subjectMissing && !messageShort
  {
    e := map[];
    if nameMissing {
      e := e[NameField := "Name required"];
    }
    assert e.Keys <= {NameField} && (NameField in e <==> nameMissing);
    if emailError.Some? {
      e := e[EmailField := emailError.value];
    }
    assert e.Keys <= {NameField, EmailField} && (EmailField in e <==> emailError.Some?);
    if subjectMissing {
      e := e[SubjectField := "Subject required"];
    }
    assert SubjectField in e <==> subjectMissing;
    if messageShort {
      e := e[MessageField := "Minimum 10 characters"];
    }
    NoFieldMeansEmpty(e);
  }

  /** The four fields are all the keys there are. */
  lemma NoFieldMeansEmpty(e: map<Field, string>)
    ensures e == map[] <==> NameField !in e && EmailField !in e && SubjectField !in e && MessageField !in e
  {
    if NameField !in e && EmailField !in e && SubjectField !in e && MessageField !in e {
      forall f: Field ensures f !in e {
        match f
        case NameField =>
        case EmailField =>
        case SubjectField =>
        case MessageField =>
      }
      assert e.Keys == {};
    }
  }

  /** A form the page finds valid passes every check of the route. */
  lemma PageValidPassesRoute(name: string, email: string, subject: string, message: string, orderNumber: string)
    requires !IsBlank(name) && EmailError(email).None? && !IsBlank(subject) && !ShortMessage(message)
    ensures ContactError(ContactRequest(Some(name), Some(email), Some(orderNumber), Some(subject), Some(message))).None?
  {
  }

  /** An address with surrounding spaces is refused: the pattern is applied
      to the untrimmed text. */
  lemma PaddedEmailRefused(email: string)
    requires |email| > 0 && IsSpace(email[0])
    ensures !ValidEmail(email)
  {
  }
}
