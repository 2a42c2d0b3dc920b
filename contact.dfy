/** ContactPage: a three-field form, a submitting flag and a submit status.
    The submit handler awaits a simulated request; the model splits it at
    that await into the part that runs on submit and the part that runs
    when the awaited promise settles. */
module Contact {

  datatype SubmitStatus = Idle | Success | Error

  /** `formData` is a plain object updated with `{ ...prev, [name]: value }`,
      so it is modelled as a map from field name to value. */
  type FormData = map<string, string>

  const FieldNames: set<string> := {"name", "email", "message"}

  /** The initial and the cleared form: the three fields, all empty. */
  function EmptyForm(): (f: FormData)
    ensures f.Keys == FieldNames
    ensures forall k :: k in f ==> f[k] == ""
  {
    map["name" := "", "email" := "", "message" := ""]
  }

  datatype ContactState = ContactState(formData: FormData, isSubmitting: bool, status: SubmitStatus)

  function Initial(): (s: ContactState)
    ensures s.formData == EmptyForm() && !s.isSubmitting && s.status == Idle
  {
    ContactState(EmptyForm(), false, Idle)
  }

  /** `handleChange` for an input named `name` holding `value`. */
  function ChangeStep(s: ContactState, name: string, value: string): (r: ContactState)
    ensures name in r.formData && r.formData[name] == value
    ensures r.formData.Keys == s.formData.Keys + {name}
    ensures forall k :: k in s.formData && k != name ==> r.formData[k] == s.formData[k]
    ensures r.isSubmitting == s.isSubmitting && r.status == s.status
  {
    s.(formData := s.formData[name := value])
  }

  /** `handleSubmit` up to the await. */
  function BeginSubmitStep(s: ContactState): (r: ContactState)
    ensures r.isSubmitting && r.formData == s.formData && r.status == s.status
  {
    s.(isSubmitting := true)
  }

  /** The rest of `handleSubmit` once the awaited promise settles: on success
      the status is Success and the fields are cleared; if it rejects the
      status is Error and the fields stay; either way the flag is lowered. */
  function FinishSubmitStep(s: ContactState, rejected: bool): (r: ContactState)
    ensures !r.isSubmitting && r.status != Idle
    ensures r.status == Success <==> !rejected
    ensures !rejected ==> r.formData == EmptyForm()
    ensures rejected ==> r.formData == s.formData
  {
    if !rejected then ContactState(EmptyForm(), false, Success)
    else ContactState(s.formData, false, Error)
  }

  /** Changing a field the form already has keeps the three fields. */
  lemma ChangeKeepsFields(s: ContactState, name: string, value: string)
    requires s.formData.Keys == FieldNames && name in FieldNames
    ensures ChangeStep(s, name, value).formData.Keys == FieldNames
  {
  }

  // ---------------------------------------------------------------------
  // Runs of the page

  /** What can happen: an input changes, the form is submitted, or a pending
      request settles (fulfilled or rejected). */
  datatype Event = Change(name: string, value: string) | Submit | Settle(rejected: bool)

  function Step(s: ContactState, e: Event): (r: ContactState)
    ensures s.status != Idle ==> r.status != Idle
    ensures e.Submit? ==> r.isSubmitting
    ensures e.Settle? ==> r.status != Idle && !r.isSubmitting
  {
    match e
    case Change(name, value) => ChangeStep(s, name, value)
    case Submit => BeginSubmitStep(s)
    case Settle(rejected) => FinishSubmitStep(s, rejected)
  }

  /** A status that has left Idle never returns to it. */
  function Run(s: ContactState, events: seq<Event>): (r: ContactState)
    ensures s.status != Idle ==> r.status != Idle
    ensures events == [] ==> r == s
    decreases |events|
  {
    if events == [] then s else Run(Step(s, events[0]), events[1..])
  }

  /** No step goes back to Idle. */
  lemma StepNeverIdles(s: ContactState, e: Event)
    requires s.status != Idle || e.Settle?
    ensures Step(s, e).status != Idle
  {
  }

  /** Once a submission has settled, the status is never Idle again. */
  lemma {:induction false} RunNeverIdles(s: ContactState, events: seq<Event>)
    requires s.status != Idle || exists k :: 0 <= k < |events| && events[k].Settle?
    ensures Run(s, events).status != Idle
    decreases |events|
  {
    if events != [] {
      var next := Step(s, events[0]);
      if s.status != Idle || events[0].Settle? {
        StepNeverIdles(s, events[0]);
      } else {
        var k :| 0 <= k < |events| && events[k].Settle?;
        assert events[1..][k - 1] == events[k];
      }
      RunNeverIdles(next, events[1..]);
    }
  }

  /** Submitting and then settling leaves the flag down, whatever the outcome
      and whatever happened before. */
  lemma SubmitThenSettle(s: ContactState, rejected: bool)
    ensures var r := Run(s, [Submit, Settle(rejected)]);
      !r.isSubmitting && r.status != Idle
      && (rejected ==> r.formData == s.formData && r.status == Error)
      && (!rejected ==> r.formData == EmptyForm() && r.status == Success)
  {
  }

  // ---------------------------------------------------------------------
  // The component

  class ContactPage {
    var formData: FormData
    var isSubmitting: bool
    var submitStatus: SubmitStatus

    function State(): ContactState
      reads this
    {
      ContactState(formData, isSubmitting, submitStatus)
    }

    constructor ()
      ensures State() == Initial()
    {
      formData := map["name" := "", "email" := "", "message" := ""];
      isSubmitting := false;
      submitStatus := Idle;
    }

    method HandleChange(name: string, value: string)
      modifies this
      ensures State() == ChangeStep(old(State()), name, value)
      ensures formData == old(formData)[name := value]
      ensures isSubmitting == old(isSubmitting) && submitStatus == old(submitStatus)
    {
      formData := formData[name := value];
    }

    /** `handleSubmit` up to the await. */
    method BeginSubmit()
      modifies this
      ensures State() == BeginSubmitStep(old(State()))
      ensures isSubmitting && formData == old(formData) && submitStatus == old(submitStatus)
    {
      isSubmitting := true;
    }

    /** The `try`/`catch`/`finally` once the awaited promise settles. */
    method FinishSubmit(rejected: bool)
      modifies this
      ensures State() == FinishSubmitStep(old(State()), rejected)
      ensures !isSubmitting && submitStatus != Idle
    {
      if !rejected {
        submitStatus := Success;
        formData := map["name" := "", "email" := "", "message" := ""];
      } else {
        submitStatus := Error;
      }
      isSubmitting := false;
    }
  }
}
