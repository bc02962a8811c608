/**
 * js/hall-inquiries.js: the records a hall-rental inquiry form and a
 * contact form store, the `{ success, id | error }` results of the writes,
 * the status update of a stored inquiry, and the submit handler of each form.
 *
 * Writes to the document store are given as their outcomes (the store's id
 * for the new document, or the failure's message); server timestamps are
 * given as numbers.
 */
module HallInquiries {
  import opened JsValues

  const NewStatus: string := "new"
  const DefaultSubject: string := "General Inquiry"

  // ---------------------------------------------------------------------
  // Records

  /** The `formData` object `submitInquiry` receives. */
  datatype InquiryForm = InquiryForm(
    name: string, email: string,
    phone: Option<string>, eventDate: Option<string>, eventType: Option<string>,
    guestCount: Option<string>, message: Option<string>)

  /** The fields `submitInquiry` writes to `hall-inquiries` (besides `createdAt`). */
  datatype InquiryPayload = InquiryPayload(
    name: string, email: string, phone: string, eventDate: string, eventType: string,
    guestCount: string, message: string, status: string)

  /** The `formData` object `submitContact` receives. */
  datatype ContactForm = ContactForm(
    name: string, email: string, phone: Option<string>, subject: Option<string>, message: string)

  /** The fields `submitContact` writes to `contact-messages` (besides `createdAt`). */
  datatype ContactPayload = ContactPayload(
    name: string, email: string, phone: string, subject: string, message: string, status: string)

  /** A stored hall inquiry with its server timestamps. */
  datatype Inquiry = Inquiry(fields: InquiryPayload, createdAt: int, updatedAt: Option<int>)

  /** What the store answers to an `add`. */
  datatype AddOutcome = Added(id: string) | AddFailed(message: string)

  /** What the store answers to an `update`. */
  datatype WriteOutcome = Written | WriteFailed(message: string)

  /** The `{ success, id }` / `{ success, error }` objects the write operations return. */
  datatype Response = Response(success: bool, id: Option<string>, error: Option<string>)

  // ---------------------------------------------------------------------
  // Payloads

  /**
   * The object literal of `submitInquiry`: status "new", name and email as
   * given, each optional field as given when set and '' otherwise.
   */
  function InquiryPayloadOf(f: InquiryForm): (p: InquiryPayload)
    ensures p.status == NewStatus
    ensures p.name == f.name && p.email == f.email
    ensures StoredOrBlank(p.phone, f.phone) && StoredOrBlank(p.eventDate, f.eventDate)
    ensures StoredOrBlank(p.eventType, f.eventType) && StoredOrBlank(p.guestCount, f.guestCount)
    ensures StoredOrBlank(p.message, f.message)
  {
    InquiryPayload(f.name, f.email, OrElse(f.phone, ""), OrElse(f.eventDate, ""),
                   OrElse(f.eventType, ""), OrElse(f.guestCount, ""), OrElse(f.message, ""),
                   NewStatus)
  }

  /**
   * The object literal of `submitContact`: status "new", name, email and
   * message as given (the message even when empty), the phone or '', the
   * subject or "General Inquiry".
   */
  function ContactPayloadOf(f: ContactForm): (p: ContactPayload)
    ensures p.status == NewStatus
    ensures p.name == f.name && p.email == f.email && p.message == f.message
    ensures StoredOrBlank(p.phone, f.phone)
    ensures Truthy(f.subject) ==> p.subject == f.subject.value
    ensures !Truthy(f.subject) ==> p.subject == DefaultSubject
  {
    ContactPayload(f.name, f.email, OrElse(f.phone, ""), OrElse(f.subject, DefaultSubject),
                   f.message, NewStatus)
  }

  /** An optional field is stored as given when it is set, and as '' otherwise. */
  predicate StoredOrBlank(stored: string, given: Option<string>)
  {
    (stored == "" <==> !Truthy(given)) && (stored != "" ==> given == Some(stored))
  }

  // ---------------------------------------------------------------------
  // Results of the writes

  /** The result of `submitInquiry` and `submitContact` for the store's answer. */
  function AddResponse(o: AddOutcome): (r: Response)
    ensures r.success <==> o.Added?
    ensures r.id.Some? <==> r.success
    ensures r.error.Some? <==> !r.success
    ensures o.Added? ==> r.id == Some(o.id)
    ensures o.AddFailed? ==> r.error == Some(o.message)
  {
    match o
    case Added(id) => Response(true, Some(id), None)
    case AddFailed(message) => Response(false, None, Some(message))
  }

  /** The result of `updateStatus` for the store's answer. */
  function UpdateResponse(o: WriteOutcome): (r: Response)
    ensures r.success <==> o.Written?
    ensures r.id.None?
    ensures r.error.Some? <==> !r.success
    ensures o.WriteFailed? ==> r.error == Some(o.message)
  {
    match o
    case Written => Response(true, None, None)
    case WriteFailed(message) => Response(false, None, Some(message))
  }

  /** The store's answer to an `add`, read back from the result object. */
  function AddOutcomeOf(r: Response): Option<AddOutcome>
  {
    if r.success && r.id.Some? then Some(Added(r.id.value))
    else if !r.success && r.error.Some? then Some(AddFailed(r.error.value))
    else None
  }

  /** The result object loses nothing of the store's answer, and the failure is returned, not thrown. */
  lemma AddResponseRoundTrip(o: AddOutcome)
    ensures AddOutcomeOf(AddResponse(o)) == Some(o)
  {
  }

  /** The result of `submitInquiry`: the record it writes and what it returns. */
  function SubmitInquiry(f: InquiryForm, outcome: AddOutcome): (r: (InquiryPayload, Response))
    ensures r.0.status == NewStatus
    ensures r.1.success <==> outcome.Added?
  {
    (InquiryPayloadOf(f), AddResponse(outcome))
  }

  /** The result of `submitContact`: the record it writes and what it returns. */
  function SubmitContact(f: ContactForm, outcome: AddOutcome): (r: (ContactPayload, Response))
    ensures r.0.status == NewStatus
    ensures r.1.success <==> outcome.Added?
  {
    (ContactPayloadOf(f), AddResponse(outcome))
  }

  // ---------------------------------------------------------------------
  // updateStatus

  /**
   * `updateStatus(inquiryId, status)` on the stored inquiry, the write
   * stamped at `now`: when the store accepts it, the inquiry gets the new
   * status and `updatedAt`; when it fails, the inquiry is as it was.
   */
  function UpdateStatus(rec: Inquiry, status: string, now: int, outcome: WriteOutcome): (r: (Inquiry, Response))
    ensures r.1 == UpdateResponse(outcome)
    ensures outcome.WriteFailed? ==> r.0 == rec
  {
    if outcome.Written? then
      (Inquiry(rec.fields.(status := status), rec.createdAt, Some(now)), UpdateResponse(outcome))
    else
      (rec, UpdateResponse(outcome))
  }

  /** A status update changes `status` and `updatedAt` and leaves every other field as it was. */
  lemma UpdateStatusTouchesOnlyStatus(rec: Inquiry, status: string, now: int)
    ensures var updated := UpdateStatus(rec, status, now, Written).0;
      && updated.fields.status == status
      && updated.updatedAt == Some(now)
      && updated.createdAt == rec.createdAt
      && updated.fields.(status := rec.fields.status) == rec.fields
  {
  }

  // ---------------------------------------------------------------------
  // Reading the forms

  /**
   * The `formData` the inquiry handler reads from the form's controls (by
   * id). `#name` and `#email` are read without `?.`, so a form lacking one
   * of them makes the handler throw (`None`); every other control may be
   * missing and then reads as ''.
   */
  function ReadInquiryForm(controls: map<string, string>): (r: Option<InquiryForm>)
    ensures r.Some? <==> "name" in controls && "email" in controls
  {
    if "name" !in controls || "email" !in controls then None
    else Some(InquiryForm(
      controls["name"], controls["email"],
      Some(ControlValue(controls, "phone")), Some(ControlValue(controls, "event-date")),
      Some(ControlValue(controls, "event-type")), Some(ControlValue(controls, "guests")),
      Some(ControlValue(controls, "message"))))
  }

  /**
   * The `formData` the contact handler reads. `#name`, `#email` and
   * `#message` are required; `#phone` and `#subject` may be missing.
   */
  function ReadContactForm(controls: map<string, string>): (r: Option<ContactForm>)
    ensures r.Some? <==> "name" in controls && "email" in controls && "message" in controls
  {
    if "name" !in controls || "email" !in controls || "message" !in controls then None
    else Some(ContactForm(
      controls["name"], controls["email"],
      Some(ControlValue(controls, "phone")), Some(ControlValue(controls, "subject")),
      controls["message"]))
  }

  /**
   * A missing optional inquiry control is stored as ''; a contact form
   * without a `#subject` control reads subject '', which is stored as
   * "General Inquiry".
   */
  lemma MissingControlsStoredAsDefaults(controls: map<string, string>)
    ensures "name" in controls && "email" in controls ==>
      var p := InquiryPayloadOf(ReadInquiryForm(controls).value);
      && ("phone" !in controls ==> p.phone == "")
      && ("event-date" !in controls ==> p.eventDate == "")
      && ("event-type" !in controls ==> p.eventType == "")
      && ("guests" !in controls ==> p.guestCount == "")
      && ("message" !in controls ==> p.message == "")
    ensures "name" in controls && "email" in controls && "message" in controls && "subject" !in controls ==>
      && ReadContactForm(controls).value.subject == Some("")
      && ContactPayloadOf(ReadContactForm(controls).value).subject == DefaultSubject
  {
  }

  // ---------------------------------------------------------------------
  // The submit handlers

  /** Where a form is in its submission. */
  datatype Phase = Idle | Submitting | Sent

  /** What the form element shows: its controls, or the thank-you panel that replaced them. */
  datatype FormBody = Controls(values: map<string, string>) | ThankYou(heading: string)

  const InquiryProgress: string := "Submitting..."
  const ContactProgress: string := "Sending..."
  const InquiryThanks: string := "Thank You!"
  const ContactThanks: string := "Message Sent!"

  /** What the submit button shows at one moment: its text and whether it is disabled. */
  datatype ButtonView = ButtonView(text: string, disabled: bool)

  /** A form with a submit button, as its submit handler changes it. */
  class SubmitForm {
    var body: FormBody
    var buttonLabel: string
    var buttonDisabled: bool
    var phase: Phase
    /** The label the handler saves before showing progress (`originalText`). */
    var savedLabel: string
    /** Every change to the submit button, oldest first. */
    ghost var shown: seq<ButtonView>

    ghost predicate Valid()
      reads this
    {
      match phase
      case Idle => body.Controls? && !buttonDisabled
      case Submitting => body.Controls? && buttonDisabled
      case Sent => body.ThankYou?
    }

    constructor (values: map<string, string>, initialLabel: string)
      ensures Valid() && phase == Idle
      ensures body == Controls(values) && buttonLabel == initialLabel && !buttonDisabled
      ensures shown == []
    {
      body := Controls(values);
      buttonLabel := initialLabel;
      buttonDisabled := false;
      phase := Idle;
      savedLabel := initialLabel;
      shown := [];
    }

    /** Idle to submitting: save the label, show `progress`, disable the button. */
    method Begin(progress: string)
      requires Valid() && phase == Idle
      modifies this
      ensures Valid() && phase == Submitting
      ensures savedLabel == old(buttonLabel) && buttonLabel == progress && buttonDisabled
      ensures body == old(body)
      ensures shown == old(shown) + [ButtonView(progress, true)]
    {
      savedLabel := buttonLabel;
      buttonLabel := progress;
      buttonDisabled := true;
      phase := Submitting;
      shown := shown + [ButtonView(progress, true)];
    }

    /**
     * Submitting to sent (the thank-you panel replaces the form, for good)
     * or back to idle (the saved label and the enabled button come back,
     * the entered values stay).
     */
    method Complete(result: Response, thanks: string)
      requires Valid() && phase == Submitting
      modifies this
      ensures Valid()
      ensures savedLabel == old(savedLabel)
      ensures result.success ==> phase == Sent && body == ThankYou(thanks) && shown == old(shown)
      ensures result.success ==> buttonLabel == old(buttonLabel) && buttonDisabled == old(buttonDisabled)
      ensures !result.success ==>
        phase == Idle && body == old(body) && buttonLabel == old(savedLabel) && !buttonDisabled
        && shown == old(shown) + [ButtonView(old(savedLabel), false)]
    {
      if result.success {
        body := ThankYou(thanks);
        phase := Sent;
      } else {
        buttonLabel := savedLabel;
        buttonDisabled := false;
        phase := Idle;
        shown := shown + [ButtonView(savedLabel, false)];
      }
    }
  }

  /**
   * The submit listener of `HallInquiries.initFormHandler`. The browser only
   * fires it while the form is idle: the button is disabled while a
   * submission runs, and a sent form has no button left. It returns the
   * record it had written, or `None` when the form lacks `#name` or
   * `#email`; the handler then throws with the button still disabled. The
   * button shows "Submitting..." and is disabled before the record is
   * read and written; only a failed write gives it back its label.
   */
  method HandleInquirySubmit(form: SubmitForm, outcome: AddOutcome) returns (written: Option<InquiryPayload>)
    requires form.Valid() && form.phase == Idle
    modifies form
    ensures form.Valid()
    ensures old(form.body).Controls? && written == (
      var read := ReadInquiryForm(old(form.body).values);
      if read.Some? then Some(InquiryPayloadOf(read.value)) else None)
    ensures written.None? ==>
      form.phase == Submitting && form.buttonLabel == InquiryProgress && form.body == old(form.body)
    ensures written.Some? && outcome.Added? ==> form.phase == Sent && form.body == ThankYou(InquiryThanks)
    ensures written.Some? && outcome.AddFailed? ==>
      form.phase == Idle && form.body == old(form.body)
      && form.buttonLabel == old(form.buttonLabel) && !form.buttonDisabled
    ensures form.shown == old(form.shown) + [ButtonView(InquiryProgress, true)]
      + (if written.Some? && outcome.AddFailed? then [ButtonView(old(form.buttonLabel), false)] else [])
  {
    form.Begin(InquiryProgress);
    var formData := ReadInquiryForm(form.body.values);
    if formData.None? {
      return None;
    }
    var submitted := SubmitInquiry(formData.value, outcome);
    var payload, result := submitted.0, submitted.1;
    form.Complete(result, InquiryThanks);
    written := Some(payload);
  }

  /**
   * The submit listener of `ContactForm.initFormHandler`, under the same
   * conditions, with "Sending..." on the button and `#message` required too.
   */
  method HandleContactSubmit(form: SubmitForm, outcome: AddOutcome) returns (written: Option<ContactPayload>)
    requires form.Valid() && form.phase == Idle
    modifies form
    ensures form.Valid()
    ensures old(form.body).Controls? && written == (
      var read := ReadContactForm(old(form.body).values);
      if read.Some? then Some(ContactPayloadOf(read.value)) else None)
    ensures written.None? ==>
      form.phase == Submitting && form.buttonLabel == ContactProgress && form.body == old(form.body)
    ensures written.Some? && outcome.Added? ==> form.phase == Sent && form.body == ThankYou(ContactThanks)
    ensures written.Some? && outcome.AddFailed? ==>
      form.phase == Idle && form.body == old(form.body)
      && form.buttonLabel == old(form.buttonLabel) && !form.buttonDisabled
    ensures form.shown == old(form.shown) + [ButtonView(ContactProgress, true)]
      + (if written.Some? && outcome.AddFailed? then [ButtonView(old(form.buttonLabel), false)] else [])
  {
    form.Begin(ContactProgress);
    var formData := ReadContactForm(form.body.values);
    if formData.None? {
      return None;
    }
    var submitted := SubmitContact(formData.value, outcome);
    var payload, result := submitted.0, submitted.1;
    form.Complete(result, ContactThanks);
    written := Some(payload);
  }
}
