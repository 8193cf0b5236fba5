/**
 * The create-campaign form: five text fields edited one at a time, and the
 * submit handler that converts the goal and the deadline, issues the
 * `addCampaign` write, and clears the form only when that write succeeds.
 */
module AddCampaign {
  import opened Ledger

  datatype Field = Title | Description | Target | Deadline | Image

  datatype Form = Form(title: string, description: string, target: string,
                       deadline: string, image: string)

  /** The form as it is first rendered and as it is reset after a successful write. */
  const EmptyForm: Form := Form("", "", "", "", "")

  /**
   * `new Date(s).getTime()`: the milliseconds since the epoch of the
   * `datetime-local` string, or NaN when it does not parse. Date parsing is
   * locale- and time-zone-dependent, so it is a parameter of the model.
   */
  type ParseDate = string -> JsNumber

  function Get(form: Form, field: Field): string
  {
    match field
    case Title => form.title
    case Description => form.description
    case Target => form.target
    case Deadline => form.deadline
    case Image => form.image
  }

  /** handleFormFieldChange(field, value): that field becomes `value`, the other four are kept. */
  function WithField(form: Form, field: Field, value: string): (edited: Form)
    ensures Get(edited, field) == value
    ensures forall other :: other != field ==> Get(edited, other) == Get(form, other)
  {
    match field
    case Title => form.(title := value)
    case Description => form.(description := value)
    case Target => form.(target := value)
    case Deadline => form.(deadline := value)
    case Image => form.(image := value)
  }

  /** A form equals the empty form exactly when every field reads "". */
  lemma EmptyFormHasNoText(form: Form)
    ensures form == EmptyForm <==> forall field :: Get(form, field) == ""
  {
    if forall field :: Get(form, field) == "" {
      assert Get(form, Title) == "" && Get(form, Description) == "" && Get(form, Target) == "";
      assert Get(form, Deadline) == "" && Get(form, Image) == "";
    }
  }

  /**
   * `Math.floor(ms / 1000)`: the whole seconds of a millisecond time, rounded
   * down (also for times before the epoch); NaN stays NaN.
   */
  function DeadlineSeconds(ms: JsNumber): (secs: JsNumber)
    ensures secs.NaN? <==> ms.NaN?
    ensures ms.Int? ==> secs.n * 1000 <= ms.n < secs.n * 1000 + 1000
  {
    match ms
    case NaN => NaN
    case Int(n) => Int(n / 1000)  // Dafny's `/` rounds down for a positive divisor
  }

  /** The `addCampaign` call a connected submit makes, given the converted goal. */
  function CreateCall(owner: Address, form: Form, targetWei: int, parseDate: ParseDate): WriteCall
  {
    AddCampaign(owner, form.title, form.description, targetWei,
                DeadlineSeconds(parseDate(form.deadline)), form.image)
  }

  datatype SubmitResult = NotConnected | InvalidTarget | WriteFailed | Created

  datatype FormState = FormState(form: Form, writes: seq<WriteCall>)

  datatype Submitted = Submitted(state: FormState, result: SubmitResult)

  /**
   * handleSubmit, with `writeOk` the outcome the wallet and the ledger would
   * give the awaited write. Without a wallet nothing happens; when parseEther
   * throws on the goal no write is made; otherwise exactly one `addCampaign`
   * write is recorded, and the form is reset only when it succeeds. A deadline
   * that does not parse becomes NaN, which the ABI encoder cannot turn into an
   * integer (`BigInt(NaN)` throws), so that write always rejects.
   */
  function Submit(s: FormState, address: Option<Address>, parseDate: ParseDate,
                  parseEther: ParseEther, writeOk: bool): (out: Submitted)
    ensures out.result.NotConnected? <==> !Connected(address)
    ensures out.result.InvalidTarget? <==> Connected(address) && parseEther(s.form.target).None?
    ensures out.result.Created? <==>
              && Connected(address) && parseEther(s.form.target).Some?
              && parseDate(s.form.deadline).Int? && writeOk
    ensures parseDate(s.form.deadline).NaN? ==> !out.result.Created?
    ensures out.result.Created? ==> out.state.form == EmptyForm
    ensures !out.result.Created? ==> out.state.form == s.form
    ensures out.result.NotConnected? || out.result.InvalidTarget? ==> out.state.writes == s.writes
    ensures out.result.WriteFailed? || out.result.Created? ==>
              && |out.state.writes| == |s.writes| + 1
              && out.state.writes[..|s.writes|] == s.writes
              && var call := out.state.writes[|s.writes|];
              && call.AddCampaign?
              && call.owner == address.value
              && call.title == s.form.title
              && call.description == s.form.description
              && call.target == parseEther(s.form.target).value
              && call.deadline == DeadlineSeconds(parseDate(s.form.deadline))
              && call.image == s.form.image
  {
    if !Connected(address) then
      Submitted(s, NotConnected)
    else
      match parseEther(s.form.target)
      case None => Submitted(s, InvalidTarget)
      case Some(targetWei) =>
        var writes := s.writes + [CreateCall(address.value, s.form, targetWei, parseDate)];
        if writeOk && DeadlineSeconds(parseDate(s.form.deadline)).Int? then
          Submitted(FormState(EmptyForm, writes), Created)
        else Submitted(FormState(s.form, writes), WriteFailed)
  }

  /**
   * A failed write loses nothing: submitting again from the state it leaves,
   * with the same wallet and conversions, issues the identical call.
   */
  lemma RetryAfterFailureResendsSameCall(s: FormState, address: Option<Address>, parseDate: ParseDate,
                                         parseEther: ParseEther, retryOk: bool)
    requires Submit(s, address, parseDate, parseEther, false).result.WriteFailed?
    ensures var failed := Submit(s, address, parseDate, parseEther, false).state;
            var retried := Submit(failed, address, parseDate, parseEther, retryOk).state;
            && |retried.writes| == |s.writes| + 2
            && retried.writes[|s.writes| + 1] == retried.writes[|s.writes|]
  {
  }

  /** A sequence of edits, each one call of handleFormFieldChange. */
  datatype Edit = Edit(field: Field, value: string)

  function ApplyEdits(form: Form, edits: seq<Edit>): Form
  {
    if edits == [] then form
    else WithField(ApplyEdits(form, edits[..|edits| - 1]), edits[|edits| - 1].field, edits[|edits| - 1].value)
  }

  /** The value of `field` after `edits`: the last edit to it, or `initial` if none. */
  function LastValue(edits: seq<Edit>, field: Field, initial: string): string
  {
    if edits == [] then initial
    else if edits[|edits| - 1].field == field then edits[|edits| - 1].value
    else LastValue(edits[..|edits| - 1], field, initial)
  }

  /** After any sequence of edits, each field holds the last value typed into it. */
  lemma {:induction false} EditsKeepLastValue(form: Form, edits: seq<Edit>, field: Field)
    ensures Get(ApplyEdits(form, edits), field) == LastValue(edits, field, Get(form, field))
  {
    if edits != [] {
      EditsKeepLastValue(form, edits[..|edits| - 1], field);
    }
  }

  /** The component: the form and the writes it has issued. */
  class AddCampaignComponent {
    var form: Form
    var writes: seq<WriteCall>

    function State(): FormState
      reads this
    {
      FormState(form, writes)
    }

    constructor ()
      ensures State() == FormState(EmptyForm, [])
    {
      form := EmptyForm;
      writes := [];
    }

    method HandleFormFieldChange(fieldName: Field, value: string)
      modifies this
      ensures State() == old(State()).(form := WithField(old(form), fieldName, value))
    {
      form := WithField(form, fieldName, value);
    }

    method HandleSubmit(address: Option<Address>, parseDate: ParseDate, parseEther: ParseEther,
                        writeOk: bool) returns (r: SubmitResult)
      modifies this
      ensures Submitted(State(), r) == Submit(old(State()), address, parseDate, parseEther, writeOk)
    {
      if !Connected(address) {
        return NotConnected;
      }
      var timestamp := DeadlineSeconds(parseDate(form.deadline));
      var targetWei := parseEther(form.target);
      if targetWei.None? {
        return InvalidTarget;
      }
      writes := writes + [AddCampaign(address.value, form.title, form.description,
                                      targetWei.value, timestamp, form.image)];
      if timestamp.NaN? || !writeOk {  // encoding a NaN deadline throws inside writeContractAsync
        return WriteFailed;
      }
      form := EmptyForm;
      r := Created;
    }
  }
}
