/**
 * The feature encoder of the loan-eligibility front end (`predict_loan`):
 * eleven raw form values become the thirteen-field numeric record the
 * pre-trained classifier expects, and the classifier's label becomes the
 * message shown to the applicant.
 */
module LoanApp {
  import opened Wrappers
  import opened Strings

  const Approved := "APPROVED: You meet the criteria."
  const Rejected := "REJECTED: High risk flagged."

  /** The values of the form's dropdowns, in the order the form lists them. */
  const GenderOptions: seq<string> := ["Male", "Female"]
  const YesNoOptions: seq<string> := ["Yes", "No"]
  const DependentsOptions: seq<string> := ["0", "1", "2", "3+"]
  const EducationOptions: seq<string> := ["Graduate", "Not Graduate"]
  const LoanTermOptions: seq<int> := [360, 180, 120, 60, 480]
  const CreditHistoryOptions: seq<string> := ["Good (1.0)", "Bad (0.0)"]
  const PropertyAreaOptions: seq<string> := ["Urban", "Semiurban", "Rural"]

  /** One form submission, as the front end hands it to `predict_loan`. */
  datatype RawApplication = RawApplication(
    gender: string,
    married: string,
    dependents: string,
    education: string,
    selfEmployed: string,
    applicantIncome: real,
    coapplicantIncome: real,
    loanAmount: real,
    loanTerm: int,
    creditHistory: string,
    propertyArea: string)

  /** The row handed to the classifier, one field per training column. */
  datatype FeatureRecord = FeatureRecord(
    gender: int,
    married: int,
    dependents: nat,
    education: int,
    selfEmployed: int,
    applicantIncome: real,
    coapplicantIncome: real,
    loanAmount: real,
    loanAmountTerm: real,
    creditHistory: real,
    propertyArea: int,
    totalIncome: real,
    debtIncomeRatio: real)

  /** `int(dependents)` rejected the text (Python raises ValueError). */
  datatype EncodingError = DependentsNotInteger(text: string)

  /** The one field whose text can make encoding fail. */
  predicate DependentsAccepted(dependents: string) {
    dependents == "3+" || IsNumeral(dependents)
  }

  /**
   * What the record must be for `raw`, field by field, as the training
   * columns define it. `ConformingIsEncoded` shows it fixes the record.
   */
  ghost predicate Conforms(raw: RawApplication, rec: FeatureRecord) {
    && (rec.gender == 0 || rec.gender == 1) && (rec.gender == 1 <==> raw.gender == "Male")
    && (rec.married == 0 || rec.married == 1) && (rec.married == 1 <==> raw.married == "Yes")
    && (raw.dependents == "3+" ==> rec.dependents == 3)
    && (raw.dependents != "3+" ==> IsNumeral(raw.dependents) && rec.dependents == ValueOf(raw.dependents))
    && (rec.education == 0 || rec.education == 1) && (rec.education == 0 <==> raw.education == "Graduate")
    && (rec.selfEmployed == 0 || rec.selfEmployed == 1) && (rec.selfEmployed == 1 <==> raw.selfEmployed == "Yes")
    && rec.applicantIncome == raw.applicantIncome
    && rec.coapplicantIncome == raw.coapplicantIncome
    && rec.loanAmount == raw.loanAmount
    && rec.loanAmountTerm == raw.loanTerm as real
    && (rec.creditHistory == 0.0 || rec.creditHistory == 1.0)
    && (rec.creditHistory == 1.0 <==> exists i :: OccursAt(raw.creditHistory, "Good", i))
    && (rec.propertyArea == 2 <==> raw.propertyArea == "Urban")
    && (rec.propertyArea == 1 <==> raw.propertyArea == "Semiurban")
    && (rec.propertyArea == 0 <==> raw.propertyArea != "Urban" && raw.propertyArea != "Semiurban")
    && rec.totalIncome == raw.applicantIncome + raw.coapplicantIncome
    && (rec.totalIncome == 0.0 ==> rec.debtIncomeRatio == 0.0)
    && (rec.totalIncome != 0.0 ==> rec.debtIncomeRatio * rec.totalIncome == rec.loanAmount)
  }

  /** Gender: 1 for "Male", 0 for anything else. */
  function GenderCode(gender: string): (code: int)
    ensures code == 0 || code == 1
    ensures code == 1 <==> gender == "Male"
  {
    if gender == "Male" then 1 else 0
  }

  /** Married and Self_Employed: 1 for "Yes", 0 for anything else. */
  function YesNoCode(answer: string): (code: int)
    ensures code == 0 || code == 1
    ensures code == 1 <==> answer == "Yes"
  {
    if answer == "Yes" then 1 else 0
  }

  /** Education: 0 for "Graduate", 1 for anything else. */
  function EducationCode(education: string): (code: int)
    ensures code == 0 || code == 1
    ensures code == 0 <==> education == "Graduate"
  {
    if education == "Graduate" then 0 else 1
  }

  /** Dependents: 3 for "3+", otherwise `int(dependents)`, which may fail. */
  function DependentsCode(dependents: string): (r: Result<nat, EncodingError>)
    ensures r.Success? <==> DependentsAccepted(dependents)
    ensures r.Failure? ==> r.error == DependentsNotInteger(dependents)
    ensures dependents == "3+" ==> r == Success(3)
    ensures dependents != "3+" && IsNumeral(dependents) ==> r == Success(ValueOf(dependents))
    ensures IsCanonical(dependents) ==> r.Success? && ShowNat(r.value) == dependents
  {
    if dependents == "3+" then
      assert !IsDigit(dependents[1]);
      Success(3)
    else if IsNumeral(dependents) then
      assert IsCanonical(dependents) ==> ShowNat(ValueOf(dependents)) == dependents by {
        if IsCanonical(dependents) { ShowNatValueOf(dependents); }
      }
      Success(ValueOf(dependents))
    else Failure(DependentsNotInteger(dependents))
  }

  /** Credit_History: 1.0 when the text contains "Good", else 0.0. */
  function CreditHistoryCode(creditHistory: string): (code: real)
    ensures code == 0.0 || code == 1.0
    ensures code == 1.0 <==> exists i :: OccursAt(creditHistory, "Good", i)
  {
    if Contains(creditHistory, "Good") then 1.0 else 0.0
  }

  /** Property_Area: 2 for "Urban", 1 for "Semiurban", 0 for anything else. */
  function PropertyAreaCode(propertyArea: string): (code: int)
    ensures 0 <= code <= 2
    ensures code == 2 <==> propertyArea == "Urban"
    ensures code == 1 <==> propertyArea == "Semiurban"
  {
    if propertyArea == "Urban" then 2 else if propertyArea == "Semiurban" then 1 else 0
  }

  /** Debt_Income_Ratio: the loan per unit of income, 0 when there is no income. */
  function DebtIncomeRatio(loanAmount: real, totalIncome: real): (ratio: real)
    ensures totalIncome == 0.0 ==> ratio == 0.0
    ensures totalIncome != 0.0 ==> ratio * totalIncome == loanAmount
  {
    if totalIncome == 0.0 then 0.0 else loanAmount / totalIncome
  }

  /** The encoding step of `predict_loan`: the record, or the Dependents parse error. */
  function Encode(raw: RawApplication): (r: Result<FeatureRecord, EncodingError>)
    ensures r.Success? <==> DependentsAccepted(raw.dependents)
    ensures r.Failure? ==> r.error == DependentsNotInteger(raw.dependents)
    ensures r.Success? ==> Conforms(raw, r.value)
  {
    var totalIncome := raw.applicantIncome + raw.coapplicantIncome;
    var ratio := DebtIncomeRatio(raw.loanAmount, totalIncome);
    match DependentsCode(raw.dependents)
    case Failure(e) => Failure(e)
    case Success(dependents) =>
      Success(FeatureRecord(
        gender := GenderCode(raw.gender),
        married := YesNoCode(raw.married),
        dependents := dependents,
        education := EducationCode(raw.education),
        selfEmployed := YesNoCode(raw.selfEmployed),
        applicantIncome := raw.applicantIncome,
        coapplicantIncome := raw.coapplicantIncome,
        loanAmount := raw.loanAmount,
        loanAmountTerm := raw.loanTerm as real,
        creditHistory := CreditHistoryCode(raw.creditHistory),
        propertyArea := PropertyAreaCode(raw.propertyArea),
        totalIncome := totalIncome,
        debtIncomeRatio := ratio))
  }

  /** The table fixes the record: the only record that conforms is the one `Encode` returns. */
  lemma ConformingIsEncoded(raw: RawApplication, rec: FeatureRecord)
    requires Conforms(raw, rec)
    ensures Encode(raw) == Success(rec)
  {
    var e := Encode(raw).value;
    assert Conforms(raw, e);
    if rec.totalIncome != 0.0 {
      assert (rec.debtIncomeRatio - e.debtIncomeRatio) * rec.totalIncome == 0.0;
    }
    assert rec.debtIncomeRatio == e.debtIncomeRatio;
    assert rec.creditHistory == e.creditHistory;
    assert rec.propertyArea == e.propertyArea;
    assert rec.dependents == e.dependents;
  }

  /** The message for the classifier's prediction: approval exactly for 1. */
  function Message(prediction: int): (msg: string)
    ensures msg == Approved || msg == Rejected
    ensures msg == Approved <==> prediction == 1
  {
    if prediction == 1 then Approved else Rejected
  }

  /**
   * `predict_loan` with the classifier passed in as `predict`. An encoding
   * error is raised before the try block, so it is not turned into a
   * message: it comes back as the failure.
   */
  function PredictLoan(raw: RawApplication, predict: FeatureRecord -> int): (r: Result<string, EncodingError>)
    ensures r.Failure? <==> !DependentsAccepted(raw.dependents)
    ensures r.Failure? ==> r.error == DependentsNotInteger(raw.dependents)
    ensures r.Success? ==> r.value == Approved || r.value == Rejected
    ensures r.Success? ==> exists rec :: Conforms(raw, rec) && (r.value == Approved <==> predict(rec) == 1)
  {
    match Encode(raw)
    case Failure(e) => Failure(e)
    case Success(rec) => Success(Message(predict(rec)))
  }

  /** Over the Dependents dropdown the code is the option's position: total and injective. */
  lemma DependentsDropdown()
    ensures forall k :: 0 <= k < |DependentsOptions| ==> DependentsCode(DependentsOptions[k]) == Success(k)
    ensures forall j, k ::
      && 0 <= j < |DependentsOptions| && 0 <= k < |DependentsOptions|
      && DependentsCode(DependentsOptions[j]) == DependentsCode(DependentsOptions[k])
      ==> j == k
  {
    forall k | 0 <= k < 3 ensures DependentsCode(DependentsOptions[k]) == Success(k) {
      assert ShowNat(k) == DependentsOptions[k];
      ValueOfShowNat(k);
    }
  }

  /** The three Property_Area options get 2, 1 and 0: in range and distinct. */
  lemma PropertyAreaDropdown()
    ensures forall k :: 0 <= k < |PropertyAreaOptions| ==> PropertyAreaCode(PropertyAreaOptions[k]) == 2 - k
  {
  }

  /** "Good (1.0)" gives 1.0 and "Bad (0.0)" gives 0.0. */
  lemma CreditHistoryDropdown()
    ensures CreditHistoryCode(CreditHistoryOptions[0]) == 1.0
    ensures CreditHistoryCode(CreditHistoryOptions[1]) == 0.0
  {
    assert OccursAt(CreditHistoryOptions[0], "Good", 0);
    var bad := CreditHistoryOptions[1];
    forall i | 0 <= i < |bad| ensures !OccursAt(bad, "Good", i) {
      assert bad[i] != 'G';
    }
  }

  /** The two options of each yes/no-style dropdown get the two distinct codes. */
  lemma BinaryDropdowns()
    ensures GenderCode(GenderOptions[0]) == 1 && GenderCode(GenderOptions[1]) == 0
    ensures YesNoCode(YesNoOptions[0]) == 1 && YesNoCode(YesNoOptions[1]) == 0
    ensures EducationCode(EducationOptions[0]) == 0 && EducationCode(EducationOptions[1]) == 1
  {
  }

  /** Every submission whose Dependents comes from the dropdown encodes without error. */
  lemma EncodeTotalOnDropdown(raw: RawApplication)
    requires raw.dependents in DependentsOptions
    ensures Encode(raw).Success?
  {
    DependentsDropdown();
  }

  /** With the non-negative amounts the form expects, income and ratio are non-negative. */
  lemma RatioNonNegative(raw: RawApplication)
    requires raw.applicantIncome >= 0.0 && raw.coapplicantIncome >= 0.0 && raw.loanAmount >= 0.0
    requires DependentsAccepted(raw.dependents)
    ensures Encode(raw).value.totalIncome >= 0.0
    ensures Encode(raw).value.debtIncomeRatio >= 0.0
  {
    var rec := Encode(raw).value;
    if rec.totalIncome != 0.0 {
      assert rec.debtIncomeRatio * rec.totalIncome == rec.loanAmount;
    }
  }

  /** The form's defaults (income 5000, no co-applicant, loan 100) give ratio 0.02. */
  lemma DefaultApplication()
    ensures Encode(RawApplication("Male", "Yes", "0", "Graduate", "No", 5000.0, 0.0, 100.0, 360,
      "Good (1.0)", "Urban"))
      == Success(FeatureRecord(1, 1, 0, 0, 0, 5000.0, 0.0, 100.0, 360.0, 1.0, 2, 5000.0, 0.02))
  {
    var raw := RawApplication("Male", "Yes", "0", "Graduate", "No", 5000.0, 0.0, 100.0, 360,
      "Good (1.0)", "Urban");
    DependentsDropdown();
    assert DependentsCode(raw.dependents) == Success(0);
    CreditHistoryDropdown();
    assert CreditHistoryCode(raw.creditHistory) == 1.0;
    assert DebtIncomeRatio(100.0, 5000.0) == 0.02;
  }

  /** No income at all: the ratio is 0, not a division by zero. */
  lemma NoIncomeApplication(raw: RawApplication)
    requires raw.applicantIncome == 0.0 && raw.coapplicantIncome == 0.0
    requires DependentsAccepted(raw.dependents)
    ensures Encode(raw).value.totalIncome == 0.0 && Encode(raw).value.debtIncomeRatio == 0.0
  {
  }
}
