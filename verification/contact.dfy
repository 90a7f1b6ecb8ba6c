/** The contact form (frontend/apps/contact/ContactWindow.tsx): four text fields and
    a simulated submission that always succeeds. */
module Contact {
  datatype Form = Form(name: string, email: string, subject: string, message: string)

  /** The `name` attribute of the input an edit comes from. */
  datatype Field = Name | Email | Subject | MessageField

  /** `submitStatus`: the type admits "error", but nothing ever assigns it. */
  datatype Status = Idle | Success | Error

  datatype ContactState = ContactState(form: Form, submitting: bool, status: Status)

  const EmptyForm: Form := Form("", "", "", "")

  /** The mounted form: four empty fields, not submitting, status idle. */
  const InitialContact: ContactState := ContactState(EmptyForm, false, Idle)

  function Get(f: Form, k: Field): string {
    match k
    case Name => f.name
    case Email => f.email
    case Subject => f.subject
    case MessageField => f.message
  }

  /** `handleInputChange`: `{...formData, [name]: value}`. */
  function InputChange(st: ContactState, k: Field, value: string): (r: ContactState)
    ensures Get(r.form, k) == value
    ensures forall j :: j != k ==> Get(r.form, j) == Get(st.form, j)
    ensures r.submitting == st.submitting && r.status == st.status
  {
    var f := st.form;
    var f' := match k
      case Name => f.(name := value)
      case Email => f.(email := value)
      case Subject => f.(subject := value)
      case MessageField => f.(message := value);
    st.(form := f')
  }

  /** Two forms agreeing on every field are the same form. */
  lemma FormExtensional(f: Form, g: Form)
    requires forall k :: Get(f, k) == Get(g, k)
    ensures f == g
  {
    assert Get(f, Name) == Get(g, Name);
    assert Get(f, Email) == Get(g, Email);
    assert Get(f, Subject) == Get(g, Subject);
    assert Get(f, MessageField) == Get(g, MessageField);
  }

  /** Writing back a field's current value is no change; a later edit of the same
      field overrides an earlier one. */
  lemma InputChangeLaws(st: ContactState, k: Field, v: string, w: string)
    ensures InputChange(st, k, Get(st.form, k)) == st
    ensures InputChange(InputChange(st, k, v), k, w) == InputChange(st, k, w)
  {
    FormExtensional(InputChange(st, k, Get(st.form, k)).form, st.form);
    FormExtensional(InputChange(InputChange(st, k, v), k, w).form, InputChange(st, k, w).form);
  }

  /** `handleSubmit`, synchronous part. */
  function Submit(st: ContactState): (r: ContactState)
    ensures r.submitting && r.form == st.form && r.status == st.status
  {
    st.(submitting := true)
  }

  /** The 2000 ms timer: submission done, success, fields cleared. */
  function Complete(st: ContactState): (r: ContactState)
    ensures !r.submitting && r.status == Success
    ensures forall k :: Get(r.form, k) == ""
  {
    ContactState(EmptyForm, false, Success)
  }

  /** The nested 3000 ms timer: the status returns to idle. */
  function ResetStatus(st: ContactState): (r: ContactState)
    ensures r.status == Idle && r.form == st.form && r.submitting == st.submitting
  {
    st.(status := Idle)
  }

  /** The submit button is disabled exactly while submitting. */
  predicate SubmitDisabled(st: ContactState) {
    st.submitting
  }

  /** The success card is shown exactly for status success. */
  predicate ShowsSuccess(st: ContactState) {
    st.status == Success
  }

  /** The browser's constraint validation, which runs before `onSubmit` is called:
      every field is `required`, so none may be empty, and the email input has
      `type="email"`, whose address syntax check `emailOk` stands for. */
  predicate Submittable(f: Form, emailOk: string -> bool) {
    (forall k :: Get(f, k) != "") && emailOk(f.email)
  }

  /** Whether a submit attempt reaches `handleSubmit`: the submit button is enabled
      (a disabled default button also blocks submission by Enter) and the form is
      valid. */
  predicate SubmitFires(st: ContactState, emailOk: string -> bool) {
    !SubmitDisabled(st) && Submittable(st.form, emailOk)
  }

  datatype Event = Edit(field: Field, value: string) | SubmitEvent | CompleteEvent | ResetEvent

  /** One event. A submit attempt the browser blocks changes nothing. */
  function Step(st: ContactState, e: Event, emailOk: string -> bool): ContactState {
    match e
    case Edit(k, v) => InputChange(st, k, v)
    case SubmitEvent => if SubmitFires(st, emailOk) then Submit(st) else st
    case CompleteEvent => Complete(st)
    case ResetEvent => ResetStatus(st)
  }

  function Run(st: ContactState, es: seq<Event>, emailOk: string -> bool): ContactState
    decreases |es|
  {
    if |es| == 0 then st else Run(Step(st, es[0], emailOk), es[1..], emailOk)
  }

  /** No sequence of events ever puts the form in the error status. */
  lemma {:induction false} NeverError(st: ContactState, es: seq<Event>, emailOk: string -> bool)
    requires st.status != Error
    ensures Run(st, es, emailOk).status != Error
    decreases |es|
  {
    if |es| > 0 {
      NeverError(Step(st, es[0], emailOk), es[1..], emailOk);
    }
  }

  /** From the mounted form the status is always idle or success. */
  lemma ReachableStatus(es: seq<Event>, emailOk: string -> bool)
    ensures Run(InitialContact, es, emailOk).status in {Idle, Success}
  {
    NeverError(InitialContact, es, emailOk);
  }

  /** A full submission cycle from any state ends idle, not submitting, with an empty form. */
  lemma SubmitCycle(st: ContactState)
    ensures var r := ResetStatus(Complete(Submit(st))); r == InitialContact
    ensures SubmitDisabled(Submit(st)) && ShowsSuccess(Complete(Submit(st)))
  {
  }

  /** A submit attempt on a form with an empty field or an address the browser
      rejects, or while a submission is under way, changes nothing; so the freshly
      mounted form cannot be submitted. An attempt that fires, followed by the two
      timers, returns to the mounted form. */
  lemma SubmitGuard(st: ContactState, emailOk: string -> bool)
    ensures !Submittable(st.form, emailOk) || st.submitting ==> Step(st, SubmitEvent, emailOk) == st
    ensures Step(InitialContact, SubmitEvent, emailOk) == InitialContact
    ensures SubmitFires(st, emailOk) ==>
      && SubmitDisabled(Step(st, SubmitEvent, emailOk))
      && Run(st, [SubmitEvent, CompleteEvent, ResetEvent], emailOk) == InitialContact
  {
    assert Get(EmptyForm, Name) == "";
    if SubmitFires(st, emailOk) {
      var es := [SubmitEvent, CompleteEvent, ResetEvent];
      assert es[1..] == [CompleteEvent, ResetEvent];
      assert es[1..][1..] == [ResetEvent];
      assert es[1..][1..][1..] == [];
    }
  }
}
