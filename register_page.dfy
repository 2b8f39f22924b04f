/** The lead-qualification wizard of the sign-up page (`RegisterPage`):
    four button questions, one per step, then the details form at step 5.
    Three answers disqualify the lead, which then sees only a message. */
module LeadWizard {

  import opened Wrappers

  const ServiceField := "service"
  const HealthField := "healthCertificate"
  const VatField := "vatRefund"
  const ServiceTypeField := "serviceType"

  const OtherServices := "Sorry, we only provide IOR services."
  const HealthCargo := "Sorry, we don't provide services for Health Cargo."
  const VatRefund := "Sorry, we don't provide VAT refund services."

  /** The step at which the details form is shown. */
  const DetailsStep := 5

  /** The page's state: `step`, `formData`, `isDisqualified` and
      `disqualificationMessage`. */
  datatype WizardState = WizardState(step: int, formData: map<string, string>,
                                     isDisqualified: bool, message: string)

  /** A click on a `StepButton`: the arguments it passes to `handleNext`. */
  datatype Click = Click(field: string, value: string)

  /** The nine keys of `formData` (lines 39-49). */
  const FormFields: set<string> := {"service", "healthCertificate", "vatRefund", "serviceType",
                                    "companyName", "firstName", "lastName", "email", "password"}

  /** The state `useState` starts from: step 1, every field empty. */
  const Initial := WizardState(1, map f | f in FormFields :: "", false, "")

  /** The message of a disqualifying answer (lines 60-74), None for any
      other answer. */
  function Disqualification(field: string, value: string): (r: Option<string>)
    ensures r.Some? <==>
      || (field == ServiceField && value == "OTHER")
      || (field == HealthField && value == "YES")
      || (field == VatField && value == "YES")
    ensures field == ServiceField && value == "OTHER" ==> r == Some(OtherServices)
    ensures field == HealthField && value == "YES" ==> r == Some(HealthCargo)
    ensures field == VatField && value == "YES" ==> r == Some(VatRefund)
  {
    if field == ServiceField && value == "OTHER" then Some(OtherServices)
    else if field == HealthField && value == "YES" then Some(HealthCargo)
    else if field == VatField && value == "YES" then Some(VatRefund)
    else None
  }

  /** `handleNext(field, value)`: the answer is recorded whatever it is; a
      disqualifying answer sets the flag and its message and keeps the
      step, any other answer moves one step on and leaves flag and message
      alone. */
  function Next(s: WizardState, field: string, value: string): (r: WizardState)
    ensures r.formData == s.formData[field := value]
    ensures Disqualification(field, value).Some? ==>
      r.step == s.step && r.isDisqualified && r.message == Disqualification(field, value).value
    ensures Disqualification(field, value).None? ==>
      r.step == s.step + 1 && r.isDisqualified == s.isDisqualified && r.message == s.message
  {
    var answered := s.formData[field := value];
    match Disqualification(field, value)
    case Some(m) => WizardState(s.step, answered, true, m)
    case None => WizardState(s.step + 1, answered, s.isDisqualified, s.message)
  }

  /** The buttons on screen (lines 112-150): none once disqualified, and
      none at the details step or beyond. */
  function Buttons(s: WizardState): (r: seq<Click>)
    ensures s.isDisqualified ==> r == []
    ensures !(1 <= s.step <= 4) ==> r == []
  {
    if s.isDisqualified then []
    else if s.step == 1 then
      [Click(ServiceField, "IMPORT_DIRECT"), Click(ServiceField, "IMPORT_INDIRECT"),
       Click(ServiceField, "EXPORT_DIRECT"), Click(ServiceField, "OTHER")]
    else if s.step == 2 then [Click(HealthField, "NO"), Click(HealthField, "YES")]
    else if s.step == 3 then [Click(VatField, "NO"), Click(VatField, "YES")]
    else if s.step == 4 then [Click(ServiceTypeField, "ONE_TIME"), Click(ServiceTypeField, "MONTHLY")]
    else []
  }

  /** What the page renders. */
  datatype Screen = Disqualified(message: string) | Question(step: int, buttons: seq<Click>) | DetailsForm | Blank

  /** Lines 112-170: a disqualified lead sees the message and nothing else. */
  function Render(s: WizardState): (r: Screen)
    ensures r.Disqualified? <==> s.isDisqualified
    ensures r.Disqualified? ==> r.message == s.message
    ensures r.Question? ==> r.buttons == Buttons(s) && r.buttons != []
    ensures r.DetailsForm? <==> !s.isDisqualified && s.step == DetailsStep
  {
    if s.isDisqualified then Disqualified(s.message)
    else if 1 <= s.step <= 4 then Question(s.step, Buttons(s))
    else if s.step == DetailsStep then DetailsForm
    else Blank
  }

  /** The state after a sequence of clicks. */
  function Run(s: WizardState, clicks: seq<Click>): WizardState
    decreases |clicks|
  {
    if clicks == [] then s else Run(Next(s, clicks[0].field, clicks[0].value), clicks[1..])
  }

  /** Every click is on a button the page shows at that moment. */
  predicate ValidRun(s: WizardState, clicks: seq<Click>)
    decreases |clicks|
  {
    clicks == [] || (clicks[0] in Buttons(s) && ValidRun(Next(s, clicks[0].field, clicks[0].value), clicks[1..]))
  }

  /** Once set, the flag stays set, whatever `handleNext` is called with. */
  lemma {:induction false} DisqualifiedStays(s: WizardState, clicks: seq<Click>)
    requires s.isDisqualified
    ensures Run(s, clicks).isDisqualified
    decreases |clicks|
  {
    if clicks != [] {
      DisqualifiedStays(Next(s, clicks[0].field, clicks[0].value), clicks[1..]);
    }
  }

  /** With no buttons on screen, a disqualified lead's state never changes. */
  lemma DisqualifiedIsTerminal(s: WizardState, clicks: seq<Click>)
    requires s.isDisqualified && ValidRun(s, clicks)
    ensures clicks == [] && Run(s, clicks) == s
    ensures Render(Run(s, clicks)) == Disqualified(s.message)
  {
  }

  predicate Answered(s: WizardState, field: string, values: set<string>) {
    field in s.formData && s.formData[field] in values
  }

  /** What every state reached from Initial by valid clicks satisfies: each
      step passed was passed with a qualifying answer, and a disqualified
      lead stopped at the step whose answer disqualified it. */
  predicate Progress(s: WizardState) {
    && 1 <= s.step <= DetailsStep
    && (s.step >= 2 ==> Answered(s, ServiceField, {"IMPORT_DIRECT", "IMPORT_INDIRECT", "EXPORT_DIRECT"}))
    && (s.step >= 3 ==> Answered(s, HealthField, {"NO"}))
    && (s.step >= 4 ==> Answered(s, VatField, {"NO"}))
    && (s.step >= 5 ==> Answered(s, ServiceTypeField, {"ONE_TIME", "MONTHLY"}))
    && (s.isDisqualified ==>
          || (s.step == 1 && Answered(s, ServiceField, {"OTHER"}) && s.message == OtherServices)
          || (s.step == 2 && Answered(s, HealthField, {"YES"}) && s.message == HealthCargo)
          || (s.step == 3 && Answered(s, VatField, {"YES"}) && s.message == VatRefund))
  }

  lemma ProgressInitial()
    ensures Progress(Initial)
  {
  }

  /** Clicking a shown button keeps Progress. */
  lemma ProgressStep(s: WizardState, c: Click)
    requires Progress(s) && c in Buttons(s)
    ensures Progress(Next(s, c.field, c.value))
  {
  }

  lemma {:induction false} ProgressRun(s: WizardState, clicks: seq<Click>)
    requires Progress(s) && ValidRun(s, clicks)
    ensures Progress(Run(s, clicks))
    decreases |clicks|
  {
    if clicks != [] {
      ProgressStep(s, clicks[0]);
      ProgressRun(Next(s, clicks[0].field, clicks[0].value), clicks[1..]);
    }
  }

  /** Lines 118-152: the details form is reached only with an IOR service,
      no health certificate, no VAT refund and a one-time or monthly
      service, and a disqualified lead sees the message of its answer. */
  lemma DetailsFormNeedsQualifyingAnswers(clicks: seq<Click>)
    requires ValidRun(Initial, clicks)
    ensures var s := Run(Initial, clicks);
      s.step == DetailsStep ==>
        && !s.isDisqualified
        && Answered(s, ServiceField, {"IMPORT_DIRECT", "IMPORT_INDIRECT", "EXPORT_DIRECT"})
        && Answered(s, HealthField, {"NO"})
        && Answered(s, VatField, {"NO"})
        && Answered(s, ServiceTypeField, {"ONE_TIME", "MONTHLY"})
    ensures var s := Run(Initial, clicks);
      s.isDisqualified ==> s.step < 4 && s.message in {OtherServices, HealthCargo, VatRefund}
  {
    ProgressInitial();
    ProgressRun(Initial, clicks);
  }

  /** Conversely, each qualifying set of answers reaches the details form
      in four clicks on shown buttons. */
  lemma QualifyingAnswersReachDetails(service: string, serviceType: string)
    requires service in {"IMPORT_DIRECT", "IMPORT_INDIRECT", "EXPORT_DIRECT"}
    requires serviceType in {"ONE_TIME", "MONTHLY"}
    ensures var clicks := [Click(ServiceField, service), Click(HealthField, "NO"),
                           Click(VatField, "NO"), Click(ServiceTypeField, serviceType)];
      && ValidRun(Initial, clicks)
      && Render(Run(Initial, clicks)) == DetailsForm
  {
    var clicks := [Click(ServiceField, service), Click(HealthField, "NO"),
                   Click(VatField, "NO"), Click(ServiceTypeField, serviceType)];
    var s1 := Next(Initial, ServiceField, service);
    var s2 := Next(s1, HealthField, "NO");
    var s3 := Next(s2, VatField, "NO");
    var s4 := Next(s3, ServiceTypeField, serviceType);
    assert s4.step == DetailsStep && !s4.isDisqualified;
    assert clicks[4..] == [];
    assert Run(s3, clicks[3..]) == s4 && ValidRun(s3, clicks[3..]);
    assert Run(s2, clicks[2..]) == s4 && ValidRun(s2, clicks[2..]);
    assert Run(s1, clicks[1..]) == s4 && ValidRun(s1, clicks[1..]);
  }

  /** The component's state, updated in place by its two handlers. */
  class RegisterPage {
    var step: int
    var formData: map<string, string>
    var isDisqualified: bool
    var disqualificationMessage: string

    function State(): WizardState
      reads this
    {
      WizardState(step, formData, isDisqualified, disqualificationMessage)
    }

    constructor ()
      ensures State() == Initial
    {
      step := 1;
      formData := map f | f in FormFields :: "";
      isDisqualified := false;
      disqualificationMessage := "";
    }

    /** `handleNext` (lines 56-77). */
    method HandleNext(field: string, value: string)
      modifies this
      ensures State() == Next(old(State()), field, value)
    {
      formData := formData[field := value];
      if field == ServiceField && value == "OTHER" {
        disqualificationMessage := OtherServices;
        isDisqualified := true;
        return;
      }
      if field == HealthField && value == "YES" {
        disqualificationMessage := HealthCargo;
        isDisqualified := true;
        return;
      }
      if field == VatField && value == "YES" {
        disqualificationMessage := VatRefund;
        isDisqualified := true;
        return;
      }
      step := step + 1;
    }

    /** `handleFormChange` (lines 79-82): only the named field changes. */
    method HandleFormChange(name: string, value: string)
      modifies this`formData
      ensures formData == old(formData)[name := value]
      ensures forall f :: f in old(formData) && f != name ==> formData[f] == old(formData)[f]
    {
      formData := formData[name := value];
    }
  }
}
