/**
 * The contact form: three text fields, a submitting flag and a status that is idle, success
 * or error. Typing changes one field; a submit raises the flag, and when the submission
 * settles the flag drops again, the status records the outcome (clearing the fields on
 * success) and a timer is started that later puts the status back to idle.
 *
 * The waits (two seconds for the simulated submission, five for the reset timer) are
 * discrete events here: `SubmitResolve`, `SubmitReject` and `ResetTimerFire`.
 *
 * The page lets a submit start only when the browser fires the form's submit event: every
 * input is `required` and the button is disabled while submitting, so at most one submission
 * is in flight at a time.
 */
module ContactForm {
  import opened Wrappers
  import opened Types

  datatype SubmitStatus = Idle | Success | Error

  /** The form inputs, named by their `name` attribute. */
  datatype Field = Name | Email | Message

  datatype FormData = FormData(name: string, email: string, message: string) {

    function Get(f: Field): string {
      match f
      case Name => name
      case Email => email
      case Message => message
    }

    /** `{ ...prev, [field]: value }`: one field replaced, the other two kept. */
    function Set(f: Field, v: string): (d: FormData)
      ensures d.Get(f) == v
      ensures forall g :: g != f ==> d.Get(g) == Get(g)
    {
      match f
      case Name => this.(name := v)
      case Email => this.(email := v)
      case Message => this.(message := v)
    }
  }

  const EmptyForm := FormData("", "", "")

  class FormState {
    var formData: FormData
    var isSubmitting: bool
    var submitStatus: SubmitStatus
    /** Submissions whose two-second wait has not ended yet: at most one. */
    ghost var inFlight: nat
    /** Reset timers started and not fired yet. */
    ghost var pendingResets: nat

    /**
     * The flag is up exactly while the one submission is in flight, and a status other than
     * idle always has a reset timer pending that will put it back.
     */
    ghost predicate Valid()
      reads this
    {
      && inFlight == (if isSubmitting then 1 else 0)
      && (submitStatus != Idle ==> pendingResets > 0)
    }

    constructor ()
      ensures Valid()
      ensures formData == EmptyForm && !isSubmitting && submitStatus == Idle
      ensures inFlight == 0 && pendingResets == 0
    {
      formData := EmptyForm;
      isSubmitting := false;
      submitStatus := Idle;
      inFlight := 0;
      pendingResets := 0;
    }

    /** `handleChange`: the named field takes the typed value. */
    method HandleChange(f: Field, v: string)
      requires Valid()
      modifies this
      ensures Valid()
      ensures formData.Get(f) == v
      ensures forall g :: g != f ==> formData.Get(g) == old(formData.Get(g))
      ensures isSubmitting == old(isSubmitting) && submitStatus == old(submitStatus)
      ensures inFlight == old(inFlight) && pendingResets == old(pendingResets)
    {
      formData := formData.Set(f, v);
    }

    /**
     * `handleSubmit` up to its `await`: the flag goes up before the wait starts. The submit
     * event only fires while the button is enabled and all three required fields are filled.
     */
    method SubmitStart()
      requires Valid() && !isSubmitting
      requires formData.name != "" && formData.email != "" && formData.message != ""
      modifies this
      ensures Valid()
      ensures isSubmitting && inFlight == old(inFlight) + 1
      ensures formData == old(formData) && submitStatus == old(submitStatus)
      ensures pendingResets == old(pendingResets)
    {
      isSubmitting := true;
      inFlight := inFlight + 1;
    }

    /** The wait resolves: success, fields cleared, reset timer started, flag dropped. */
    method SubmitResolve()
      requires Valid() && isSubmitting
      modifies this
      ensures Valid()
      ensures submitStatus == Success && formData == EmptyForm && !isSubmitting
      ensures inFlight == old(inFlight) - 1 && pendingResets == old(pendingResets) + 1
    {
      submitStatus := Success;
      formData := EmptyForm;
      pendingResets := pendingResets + 1;
      isSubmitting := false;   // the `finally` block
      inFlight := inFlight - 1;
    }

    /** The wait rejects: error, fields kept, reset timer started, flag dropped. */
    method SubmitReject()
      requires Valid() && isSubmitting
      modifies this
      ensures Valid()
      ensures submitStatus == Error && formData == old(formData) && !isSubmitting
      ensures inFlight == old(inFlight) - 1 && pendingResets == old(pendingResets) + 1
    {
      submitStatus := Error;
      pendingResets := pendingResets + 1;
      isSubmitting := false;   // the `finally` block
      inFlight := inFlight - 1;
    }

    /** A five-second timer fires: the status goes back to idle, whatever it was. */
    method ResetTimerFire()
      requires Valid() && pendingResets > 0
      modifies this
      ensures Valid()
      ensures submitStatus == Idle && pendingResets == old(pendingResets) - 1
      ensures formData == old(formData) && isSubmitting == old(isSubmitting) && inFlight == old(inFlight)
    {
      submitStatus := Idle;
      pendingResets := pendingResets - 1;
    }

    /** The submit button for the current state. */
    method Button() returns (b: SubmitButton)
      ensures b == ButtonFor(isSubmitting, submitStatus)
    {
      b := ButtonFor(isSubmitting, submitStatus);
    }
  }

  datatype SubmitButton = SubmitButton(text: string, disabled: bool)

  const Sending := "Sending..."
  const Sent := "Message Sent!"
  const Failed := "Failed to Send - Try Again"
  const Send := "Send Message"

  /**
   * Label and disabled state of the submit button. Submitting wins over the status; the
   * label tells apart all four situations and is "Sending..." exactly when disabled.
   */
  function ButtonFor(isSubmitting: bool, status: SubmitStatus): (b: SubmitButton)
    ensures b.disabled == isSubmitting
    ensures b.text == Sending <==> isSubmitting
    ensures b.text == Sent <==> !isSubmitting && status == Success
    ensures b.text == Failed <==> !isSubmitting && status == Error
    ensures b.text == Send <==> !isSubmitting && status == Idle
  {
    assert |Sending| == 10 && |Send| == 12 && |Sent| == 13 && |Failed| == 26;
    if isSubmitting then SubmitButton(Sending, true)
    else if status.Success? then SubmitButton(Sent, false)
    else if status.Error? then SubmitButton(Failed, false)
    else SubmitButton(Send, false)
  }

  /** A contact line: its caption, link target and shown text. */
  datatype ContactLink = ContactLink(caption: string, href: string, text: string)

  datatype ContactInfo = ContactInfo(
    email: Option<ContactLink>,
    phone: Option<ContactLink>,
    social: Option<seq<ContactLink>>)

  /** The position of a network's link in the row: Instagram, then Facebook, then Twitter. */
  function NetworkRank(text: string): int {
    if text == "IG" then 0 else if text == "FB" then 1 else 2
  }

  /**
   * The social links: one per configured network, labelled with its abbreviation and
   * pointing at that network's URL, in the order Instagram, Facebook, Twitter.
   */
  function SocialLinks(sm: SocialMedia): (links: seq<ContactLink>)
    ensures |links| == (if Truthy(sm.instagram) then 1 else 0) + (if Truthy(sm.facebook) then 1 else 0)
                     + (if Truthy(sm.twitter) then 1 else 0)
    ensures forall i :: 0 <= i < |links| ==>
      || (links[i].text == "IG" && Truthy(sm.instagram) && links[i].href == sm.instagram.value)
      || (links[i].text == "FB" && Truthy(sm.facebook) && links[i].href == sm.facebook.value)
      || (links[i].text == "TW" && Truthy(sm.twitter) && links[i].href == sm.twitter.value)
    ensures forall i, j :: 0 <= i < j < |links| ==> NetworkRank(links[i].text) < NetworkRank(links[j].text)
  {
    (if Truthy(sm.instagram) then [ContactLink("", sm.instagram.value, "IG")] else [])
    + (if Truthy(sm.facebook) then [ContactLink("", sm.facebook.value, "FB")] else [])
    + (if Truthy(sm.twitter) then [ContactLink("", sm.twitter.value, "TW")] else [])
  }

  /**
   * The contact column: an email line with a `mailto:` link and a phone line with a `tel:`
   * link, each only when the setting is non-empty, and the social links when configured.
   */
  function Contact(settings: Option<SiteSettings>): (c: ContactInfo)
    ensures c.email.Some? <==> settings.Some? && Truthy(settings.value.metadata.contactEmail)
    ensures c.email.Some? ==>
      var e := settings.value.metadata.contactEmail.value;
      c.email.value.href == "mailto:" + e && c.email.value.text == e
    ensures c.phone.Some? <==> settings.Some? && Truthy(settings.value.metadata.contactPhone)
    ensures c.phone.Some? ==>
      var t := settings.value.metadata.contactPhone.value;
      c.phone.value.href == "tel:" + t && c.phone.value.text == t
    ensures c.social.Some? <==> settings.Some? && settings.value.metadata.socialMedia.Some?
    ensures c.social.Some? ==> c.social.value == SocialLinks(settings.value.metadata.socialMedia.value)
  {
    if settings.None? then ContactInfo(None, None, None)
    else
      var m := settings.value.metadata;
      ContactInfo(
        if Truthy(m.contactEmail) then Some(ContactLink("Email", "mailto:" + m.contactEmail.value, m.contactEmail.value)) else None,
        if Truthy(m.contactPhone) then Some(ContactLink("Phone", "tel:" + m.contactPhone.value, m.contactPhone.value)) else None,
        if m.socialMedia.Some? then Some(SocialLinks(m.socialMedia.value)) else None)
  }

  /**
   * One full round: fill in the three fields, submit, the submission succeeds, the timer
   * fires. The button reads "Sending..." while waiting and "Message Sent!" after, the
   * fields are empty again and the form ends idle.
   */
  method SuccessfulRound(name: string, email: string, message: string)
    requires name != "" && email != "" && message != ""
  {
    var form := new FormState();
    form.HandleChange(Name, name);
    form.HandleChange(Email, email);
    form.HandleChange(Message, message);
    assert form.formData == FormData(name, email, message);
    form.SubmitStart();
    var b := form.Button();
    assert b.text == Sending && b.disabled;
    form.SubmitResolve();
    b := form.Button();
    assert b.text == Sent && !b.disabled;
    assert form.formData == EmptyForm;
    form.ResetTimerFire();
    assert form.submitStatus == Idle && form.pendingResets == 0;
  }

  /**
   * A failed submission keeps what was typed, and the reset timer later returns the
   * button to "Send Message" without clearing it.
   */
  method FailedRound(name: string, email: string, message: string)
    requires name != "" && email != "" && message != ""
  {
    var form := new FormState();
    form.HandleChange(Name, name);
    form.HandleChange(Email, email);
    form.HandleChange(Message, message);
    form.SubmitStart();
    form.SubmitReject();
    var b := form.Button();
    assert b.text == Failed && form.formData.message == message;
    form.ResetTimerFire();
    b := form.Button();
    assert b.text == Send && form.formData.message == message;
  }

  /**
   * Whatever happened before, a form showing an outcome has a reset timer pending: `Valid()`
   * alone lets the timer fire, the status goes back to idle and the fields are kept.
   */
  method ResetFromAnyOutcome(form: FormState)
    requires form.Valid() && form.submitStatus != Idle
    modifies form
    ensures form.Valid() && form.submitStatus == Idle && form.formData == old(form.formData)
  {
    form.ResetTimerFire();
  }
}
