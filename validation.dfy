/** The single-field validators: each returns a result record whose error is
    '' exactly when it is valid, and the email check is the regular
    expression ^[^\s@]+@[^\s@]+\.[^\s@]+$ written out as a predicate. */
module Validation {
  import opened Text

  /** { valid: boolean; error: string }. */
  datatype Validation = Validation(valid: bool, error: string)

  const Ok := Validation(true, "")

  /** One of the regex's [^\s@]+ runs: non-empty, no whitespace and no '@'. */
  predicate Segment(t: string)
  {
    |t| > 0 && forall k :: 0 <= k < |t| ==> !IsWhitespace(t[k]) && t[k] != '@'
  }

  /** emailRegex.test(email): a run, '@', a run, '.', a run, covering the whole string. */
  predicate ValidateEmail(email: string)
  {
    exists i, j :: 0 < i && i + 1 < j < |email| - 1 && email[i] == '@' && email[j] == '.'
                   && Segment(email[..i]) && Segment(email[i + 1..j]) && Segment(email[j + 1..])
  }

  /** The shape the regex accepts, stated without it: no whitespace, exactly one
      '@' with something before it, and a '.' in the domain that is neither the
      domain's first nor its last character. */
  predicate EmailShape(email: string)
  {
    var k := IndexOf(email, '@');
    HasNoWhitespace(email) && k > 0 && '@' !in email[k + 1..]
    && exists j :: k + 1 < j < |email| - 1 && email[j] == '.'
  }

  lemma EmailRegexShape(email: string)
    ensures ValidateEmail(email) <==> EmailShape(email)
  {
    if ValidateEmail(email) {
      RegexHasShape(email);
    }
    if EmailShape(email) {
      ShapeMatchesRegex(email);
    }
  }

  lemma RegexHasShape(email: string)
    requires ValidateEmail(email)
    ensures EmailShape(email)
  {
    var i, j :| 0 < i && i + 1 < j < |email| - 1 && email[i] == '@' && email[j] == '.'
                && Segment(email[..i]) && Segment(email[i + 1..j]) && Segment(email[j + 1..]);
    var local, host, top := email[..i], email[i + 1..j], email[j + 1..];
    forall k | 0 <= k < |email| ensures !IsWhitespace(email[k]) && (k != i ==> email[k] != '@') {
      if k < i {
        assert email[k] == local[k];
      } else if i < k < j {
        assert email[k] == host[k - i - 1];
      } else if j < k {
        assert email[k] == top[k - j - 1];
      }
    }
    assert '@' !in local by {
      forall k | 0 <= k < i ensures local[k] != '@' { assert local[k] == email[k]; }
    }
    assert IndexOf(email, '@') == i;
    var domain := email[i + 1..];
    assert '@' !in domain by {
      forall k | 0 <= k < |domain| ensures domain[k] != '@' { assert domain[k] == email[i + 1 + k]; }
    }
  }

  lemma ShapeMatchesRegex(email: string)
    requires EmailShape(email)
    ensures ValidateEmail(email)
  {
    var i := IndexOf(email, '@');
    var j :| i + 1 < j < |email| - 1 && email[j] == '.';
    var domain := email[i + 1..];
    forall k | 0 <= k < |email| && k != i ensures email[k] != '@' {
      if k < i {
        assert email[..i][k] == email[k];
      } else {
        assert domain[k - i - 1] == email[k];
      }
    }
    assert Segment(email[..i]);
    assert Segment(email[i + 1..j]);
    assert Segment(email[j + 1..]);
  }

  /** validateRequired: invalid exactly when the value is blank after trimming. */
  function ValidateRequired(value: string, fieldName: string): (r: Validation)
    ensures r.valid <==> !AllWhitespace(value)
    ensures r.valid ==> r == Ok
    ensures !r.valid ==> r.error == fieldName + " is required"
  {
    TrimEmptyIff(value);
    if Trim(value) == [] then Validation(false, fieldName + " is required") else Ok
  }

  /** validateMinLength: invalid exactly when the trimmed value is shorter than minLength. */
  function ValidateMinLength(value: string, minLength: int, fieldName: string): (r: Validation)
    ensures r.valid <==> minLength <= |Trim(value)|
    ensures r.valid ==> r == Ok
    ensures !r.valid ==> r.error == fieldName + " must be at least " + IntToString(minLength)
                                    + " characters long"
  {
    if |Trim(value)| < minLength then
      Validation(false, fieldName + " must be at least " + IntToString(minLength) + " characters long")
    else Ok
  }

  /** With minimum length 1 the length check accepts exactly what the required check accepts. */
  lemma MinLengthOneIsRequired(value: string, fieldName: string)
    ensures ValidateMinLength(value, 1, fieldName).valid == ValidateRequired(value, fieldName).valid
  {
    TrimEmptyIff(value);
  }

  /** Raising the minimum length never turns a rejection into an acceptance. */
  lemma MinLengthMonotone(value: string, m: int, n: int, fieldName: string)
    requires m <= n
    ensures ValidateMinLength(value, n, fieldName).valid ==> ValidateMinLength(value, m, fieldName).valid
  {
  }

  /** validateNumber: invalid exactly when value < min. */
  function ValidateNumber(value: int, min: int, fieldName: string): (r: Validation)
    ensures r.valid <==> min <= value
    ensures r.valid ==> r == Ok
    ensures !r.valid ==> r.error == fieldName + " must be at least " + IntToString(min)
  {
    if value < min then Validation(false, fieldName + " must be at least " + IntToString(min)) else Ok
  }

  /** validatePositiveNumber: invalid exactly when value <= 0. */
  function ValidatePositiveNumber(value: int, fieldName: string): (r: Validation)
    ensures r.valid <==> value > 0
    ensures r.valid ==> r == Ok
    ensures !r.valid ==> r.error == fieldName + " must be greater than 0"
  {
    if value <= 0 then Validation(false, fieldName + " must be greater than 0") else Ok
  }
}
