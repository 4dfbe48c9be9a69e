/**
 * Client-side validation of a lead edit and of an opportunity draft. Each
 * validator fills a field-to-message map with one conditional assignment per
 * field and reports the draft valid when that map is empty.
 */
module Validation {
  import opened Domain
  import opened JsStrings

  const NameRequired := "Name is required"
  const EmailRequired := "Email is required"
  const EmailInvalid := "Invalid email format"
  const CompanyRequired := "Company is required"
  const StageRequired := "Stage is required"
  const AmountInvalid := "Amount must be a positive number"

  datatype ValidationResult = ValidationResult(isValid: bool, errors: map<string, string>)

  /** Every position of s in [lo, hi) matches the class `[^\s@]`. */
  predicate PlainRun(s: string, lo: int, hi: int)
    requires 0 <= lo <= hi <= |s|
  {
    forall k | lo <= k < hi :: !IsWhitespace(s[k]) && s[k] != '@'
  }

  /**
   * The test of `/^[^\s@]+@[^\s@]+\.[^\s@]+$/`: a non-empty run, '@', a
   * non-empty run, '.', a non-empty run, where no run holds white space or '@'.
   */
  predicate IsValidEmail(email: string)
  {
    exists at, dot | 0 < at < dot < |email| - 1 ::
      && at + 1 < dot
      && email[at] == '@'
      && email[dot] == '.'
      && PlainRun(email, 0, at)
      && PlainRun(email, at + 1, dot)
      && PlainRun(email, dot + 1, |email|)
  }

  /**
   * The shape of a valid address in plain words: no white space, exactly one
   * '@', something before it, and after it a '.' that is neither the first
   * nor the last character of the domain.
   */
  ghost predicate EmailShape(email: string)
  {
    && (forall k | 0 <= k < |email| :: !IsWhitespace(email[k]))
    && exists at | 0 <= at < |email| ::
         && email[at] == '@'
         && (forall k | 0 <= k < |email| && email[k] == '@' :: k == at)
         && 0 < at
         && exists dot | at + 1 < dot < |email| - 1 :: email[dot] == '.'
  }

  lemma IsValidEmailIffShape(email: string)
    ensures IsValidEmail(email) <==> EmailShape(email)
  {
    if IsValidEmail(email) {
      var at, dot :| 0 < at < dot < |email| - 1 && at + 1 < dot && email[at] == '@' && email[dot] == '.'
        && PlainRun(email, 0, at) && PlainRun(email, at + 1, dot) && PlainRun(email, dot + 1, |email|);
      forall k | 0 <= k < |email|
        ensures !IsWhitespace(email[k]) && (email[k] == '@' ==> k == at)
      {
        if k < at {
        } else if k == at {
        } else if k < dot {
        } else if k == dot {
        } else {
        }
      }
    }
    if EmailShape(email) {
      var at :| 0 <= at < |email| && email[at] == '@'
        && (forall k | 0 <= k < |email| && email[k] == '@' :: k == at)
        && 0 < at && exists dot | at + 1 < dot < |email| - 1 :: email[dot] == '.';
      var dot :| at + 1 < dot < |email| - 1 && email[dot] == '.';
      assert PlainRun(email, 0, at);
      assert PlainRun(email, at + 1, dot);
      assert PlainRun(email, dot + 1, |email|);
    }
  }

  /**
   * Addresses the pattern accepts and rejects: a missing '.' after the '@', a
   * missing '@', white space, a second '@', and a '.' right after the '@'.
   */
  lemma IsValidEmailExamples()
    ensures IsValidEmail("a@b.co")
    ensures !IsValidEmail("a@b")
    ensures !IsValidEmail("ab.c")
    ensures !IsValidEmail("a b@c.d")
    ensures !IsValidEmail("a@b@c.d")
    ensures !IsValidEmail("a@.bc")
  {
    var good := "a@b.co";
    assert good[1] == '@' && good[3] == '.';
    assert PlainRun(good, 0, 1) && PlainRun(good, 2, 3) && PlainRun(good, 4, |good|);
    var twoAts := "a@b@c.d";
    forall at, dot | 0 < at < dot < |twoAts| - 1 && twoAts[at] == '@' && twoAts[dot] == '.'
      ensures !(at + 1 < dot && PlainRun(twoAts, 0, at) && PlainRun(twoAts, at + 1, dot)
                && PlainRun(twoAts, dot + 1, |twoAts|))
    {
      assert dot == 5;
      if at == 1 {
        assert twoAts[3] == '@';
      } else {
        assert twoAts[1] == '@';
      }
    }
    var spaced := "a b@c.d";
    forall at, dot | 0 < at < dot < |spaced| - 1 && spaced[at] == '@' && spaced[dot] == '.'
      ensures !PlainRun(spaced, 0, at)
    {
      assert at == 3 && IsWhitespace(spaced[1]);
    }
    var dotFirst := "a@.bc";
    forall at, dot | 0 < at < dot < |dotFirst| - 1 && dotFirst[at] == '@' && dotFirst[dot] == '.'
      ensures at + 1 >= dot
    {
      assert at == 1 && dot == 2;
    }
  }

  /** A property that is absent, empty or only white space. */
  predicate Blank(field: Option<string>)
  {
    field.None? || AllWhitespace(field.value)
  }

  /** `!x || x.trim() === ""`. */
  predicate MissingOrTrimmedEmpty(field: Option<string>)
  {
    !Truthy(field) || Trim(field.value) == ""
  }

  lemma MissingOrTrimmedEmptyIsBlank(field: Option<string>)
    ensures MissingOrTrimmedEmpty(field) == Blank(field)
  {
    if field.Some? {
      TrimIsEmptyIffAllWhitespace(field.value);
    }
  }

  method ValidateLead(lead: LeadForm) returns (v: ValidationResult)
    ensures v.errors.Keys <= {"name", "email", "company"}
    ensures ("name" in v.errors) == Blank(lead.name)
    ensures "name" in v.errors ==> v.errors["name"] == NameRequired
    ensures ("email" in v.errors) == (Blank(lead.email) || !IsValidEmail(lead.email.value))
    ensures "email" in v.errors ==> v.errors["email"] == (if Blank(lead.email) then EmailRequired else EmailInvalid)
    ensures ("company" in v.errors) == Blank(lead.company)
    ensures "company" in v.errors ==> v.errors["company"] == CompanyRequired
    ensures v.isValid <==> v.errors == map[]
  {
    MissingOrTrimmedEmptyIsBlank(lead.name);
    MissingOrTrimmedEmptyIsBlank(lead.email);
    MissingOrTrimmedEmptyIsBlank(lead.company);
    var errors: map<string, string> := map[];
    if MissingOrTrimmedEmpty(lead.name) {
      errors := errors["name" := NameRequired];
    }
    if MissingOrTrimmedEmpty(lead.email) {
      errors := errors["email" := EmailRequired];
    } else if !IsValidEmail(lead.email.value) {
      errors := errors["email" := EmailInvalid];
    }
    if MissingOrTrimmedEmpty(lead.company) {
      errors := errors["company" := CompanyRequired];
    }
    v := ValidationResult(|errors| == 0, errors);
  }

  /**
   * `isNaN(amount)`: null and text made of white space only convert to 0; NaN
   * and any other text do not convert to a number.
   */
  predicate LooseIsNaN(a: Amount)
  {
    a.NaN? || (a.Text? && !AllWhitespace(a.text))
  }

  /** `amount < 0`: only a negative number compares below zero (white-space text compares as 0). */
  predicate BelowZero(a: Amount)
  {
    a.Number? && a.value < 0.0
  }

  method ValidateOpportunity(draft: OpportunityDraft) returns (v: ValidationResult)
    ensures v.errors.Keys <= {"name", "stage", "amount"}
    ensures ("name" in v.errors) == Blank(draft.name)
    ensures "name" in v.errors ==> v.errors["name"] == NameRequired
    ensures ("stage" in v.errors) == Blank(draft.stage)
    ensures "stage" in v.errors ==> v.errors["stage"] == StageRequired
    ensures ("amount" in v.errors) ==
            ((draft.amount.Number? && draft.amount.value < 0.0) || (draft.amount.Text? && !AllWhitespace(draft.amount.text)))
    ensures "amount" in v.errors ==> v.errors["amount"] == AmountInvalid
    ensures v.isValid <==> v.errors == map[]
  {
    MissingOrTrimmedEmptyIsBlank(draft.name);
    MissingOrTrimmedEmptyIsBlank(draft.stage);
    var errors: map<string, string> := map[];
    if MissingOrTrimmedEmpty(draft.name) {
      errors := errors["name" := NameRequired];
    }
    if MissingOrTrimmedEmpty(draft.stage) {
      errors := errors["stage" := StageRequired];
    }
    if AmountTruthy(draft.amount) && (LooseIsNaN(draft.amount) || BelowZero(draft.amount)) {
      errors := errors["amount" := AmountInvalid];
    }
    v := ValidationResult(|errors| == 0, errors);
  }

  /** An empty name and a malformed email are both reported; a present company is not. */
  method ValidateLeadExample() returns (v: ValidationResult)
    ensures !v.isValid
    ensures v.errors == map["name" := NameRequired, "email" := EmailInvalid]
  {
    assert !AllWhitespace("bad") by { assert !IsWhitespace("bad"[0]); }
    assert !AllWhitespace("Acme") by { assert !IsWhitespace("Acme"[0]); }
    v := ValidateLead(LeadForm(Some(""), Some("bad"), Some("Acme")));
  }

  /**
   * A negative amount and a word are rejected; no amount and a zero amount are
   * accepted, and so is NaN, which is falsy and therefore never reaches the
   * `isNaN` test, and so is a blank string, which is truthy but converts to 0.
   */
  method ValidateOpportunityAmountExamples() returns (negative: ValidationResult, absent: ValidationResult,
                                                        zero: ValidationResult, notANumber: ValidationResult,
                                                        blank: ValidationResult, word: ValidationResult)
    ensures !negative.isValid && negative.errors == map["amount" := AmountInvalid]
    ensures !word.isValid && word.errors == map["amount" := AmountInvalid]
    ensures absent.isValid && zero.isValid && notANumber.isValid && blank.isValid
  {
    assert !AllWhitespace("Deal") by { assert !IsWhitespace("Deal"[0]); }
    assert !AllWhitespace("Prospecting") by { assert !IsWhitespace("Prospecting"[0]); }
    var name, stage := Some("Deal"), Some("Prospecting");
    negative := ValidateOpportunity(OpportunityDraft(name, stage, Number(-5.0), None));
    absent := ValidateOpportunity(OpportunityDraft(name, stage, NoAmount, None));
    zero := ValidateOpportunity(OpportunityDraft(name, stage, Number(0.0), None));
    notANumber := ValidateOpportunity(OpportunityDraft(name, stage, NaN, None));
    blank := ValidateOpportunity(OpportunityDraft(name, stage, Text(" "), None));
    assert !AllWhitespace("abc") by { assert !IsWhitespace("abc"[0]); }
    word := ValidateOpportunity(OpportunityDraft(name, stage, Text("abc"), None));
  }
}
