/** The heading of the outbound message: loan details first, then the plan
    text, then a fixed default. */
module Headings {
  import opened JsObjects

  const DefaultHeading: string := "New Loan Submission Request"

  /** `payload.k || 'N/A'` */
  function OrNA(v: Value): string {
    if Truthy(v) then v.value else "N/A"
  }

  /** At least one of the three loan-detail fields is truthy. */
  predicate HasLoanDetails(p: Payload) {
    Truthy(Get(p, "loanAmount")) || Truthy(Get(p, "loanPeriod")) || Truthy(Get(p, "employment"))
  }

  function LoanHeading(p: Payload): string {
    "Loan Request: USD " + OrNA(Get(p, "loanAmount")) + " / " + OrNA(Get(p, "loanPeriod"))
      + " month(s) (" + OrNA(Get(p, "employment")) + ")"
  }

  /** The heading, before it is escaped into the message. */
  function Heading(p: Payload): (h: string)
    ensures h != ""
  {
    if HasLoanDetails(p) then LoanHeading(p)
    else if Truthy(Get(p, "plan")) then Get(p, "plan").value
    else DefaultHeading
  }

  /** The loan heading is never the default text. */
  lemma LoanHeadingIsNotDefault(p: Payload)
    ensures LoanHeading(p) != DefaultHeading
  {
    assert LoanHeading(p)[0] == 'L';
    assert DefaultHeading[0] == 'N';
  }

  /** The three branches, each taken exactly when the ones before it are not:
      loan details win over the plan, the plan wins over the default. */
  lemma HeadingPriority(p: Payload)
    ensures HasLoanDetails(p) ==> Heading(p) == LoanHeading(p)
    ensures !HasLoanDetails(p) && Truthy(Get(p, "plan")) ==> Heading(p) == Get(p, "plan").value
    ensures !HasLoanDetails(p) && !Truthy(Get(p, "plan")) ==> Heading(p) == DefaultHeading
    ensures Heading(p) == DefaultHeading <==>
              (!HasLoanDetails(p) && (!Truthy(Get(p, "plan")) || Get(p, "plan").value == DefaultHeading))
  {
    LoanHeadingIsNotDefault(p);
  }

  /** When a loan detail is given, the plan and every other field are
      ignored: the heading depends on the three loan fields alone. */
  lemma PlanIgnoredWithLoanDetails(p: Payload, q: Payload)
    requires HasLoanDetails(p)
    requires forall k :: k in {"loanAmount", "loanPeriod", "employment"} ==> Get(p, k) == Get(q, k)
    ensures Heading(p) == Heading(q)
  {
    assert Get(p, "loanAmount") == Get(q, "loanAmount");
    assert Get(p, "loanPeriod") == Get(q, "loanPeriod");
    assert Get(p, "employment") == Get(q, "employment");
  }

  /** Two of the documented example payloads. */
  const LoanAndPlanExample: Payload :=
    JsObject(["loanAmount", "plan"], map["loanAmount" := Some("500"), "plan" := Some("Gold")])
  const PlanExample: Payload := JsObject(["plan"], map["plan" := Some("Gold")])

  lemma LoanAndPlanFields()
    ensures Get(LoanAndPlanExample, "loanAmount") == Some("500")
    ensures Get(LoanAndPlanExample, "loanPeriod") == None
    ensures Get(LoanAndPlanExample, "employment") == None
  {
  }

  /** A loan amount with a plan: the loan heading, missing details as N/A. */
  lemma LoanHeadingExample()
    ensures Heading(LoanAndPlanExample) == "Loan Request: USD 500 / N/A month(s) (N/A)"
  {
    LoanAndPlanFields();
    assert OrNA(Get(LoanAndPlanExample, "loanAmount")) == "500";
    assert OrNA(Get(LoanAndPlanExample, "loanPeriod")) == "N/A";
    assert OrNA(Get(LoanAndPlanExample, "employment")) == "N/A";
    LoanHeadingText();
  }

  lemma LoanHeadingText()
    ensures "Loan Request: USD " + "500" + " / " + "N/A" + " month(s) (" + "N/A" + ")"
            == "Loan Request: USD 500 / N/A month(s) (N/A)"
  {
  }

  /** A plan alone: the plan text. */
  lemma PlanHeadingExample()
    ensures Heading(PlanExample) == "Gold"
  {
    assert Get(PlanExample, "loanAmount") == None;
    assert Get(PlanExample, "loanPeriod") == None;
    assert Get(PlanExample, "employment") == None;
    assert Get(PlanExample, "plan") == Some("Gold");
  }

  /** No field at all: the default heading. */
  lemma EmptyHeadingExample()
    ensures Heading(Empty) == DefaultHeading
  {
  }
}
