/** The sign-up form action: a fixed chain of checks over the four submitted
    fields, where the first failure is the reported error, followed by the
    creation of the new user through the data service. A field is None when
    the form does not carry it at all. */
module Signup {
  import opened Seqs
  import opened Text
  import opened Keyed
  import opened Records
  import opened Validation
  import opened ServerData

  datatype SignupOutcome = Rejected(error: string) | Accepted(user: UserDraft)

  /** A field value that is truthy: present and not the empty string. */
  predicate Filled(field: Option<string>)
  {
    field.Some? && field.value != ""
  }

  predicate HasLetter(s: string) { exists i :: 0 <= i < |s| && IsLetterAscii(s[i]) }

  predicate HasDigit(s: string) { exists i :: 0 <= i < |s| && IsDigitAscii(s[i]) }

  /** getUsers().find(u => u.email.toLowerCase() === email.toLowerCase()) finds someone. */
  predicate EmailInUse(users: seq<User>, email: string)
  {
    exists i :: 0 <= i < |users| && EqualsIgnoreCase(users[i].email, email)
  }

  /** Lower-casing ASCII letters never introduces whitespace. */
  lemma LowerKeepsNoWhitespace(s: string)
    requires HasNoWhitespace(s)
    ensures HasNoWhitespace(Lower(s))
  {
    forall i | 0 <= i < |s| ensures !IsWhitespace(Lower(s)[i]) {
      assert Lower(s)[i] == LowerChar(s[i]);
    }
  }

  /** The checks of the sign-up action, in their order, and the record it builds. */
  function SignupCheck(name: Option<string>, email: Option<string>, password: Option<string>,
                       confirmPassword: Option<string>, existing: seq<User>): (r: SignupOutcome)
    ensures !(Filled(name) && Filled(email) && Filled(password) && Filled(confirmPassword)) ==>
              r == Rejected("All fields are required")
    ensures (Filled(name) && Filled(email) && Filled(password) && Filled(confirmPassword)) ==>
              var n, e, p, c := name.value, email.value, password.value, confirmPassword.value;
              && (|Trim(n)| < 2 ==> r == Rejected("Name must be at least 2 characters"))
              && (|Trim(n)| >= 2 && !ValidateEmail(e) ==>
                    r == Rejected("Please enter a valid email address"))
              && (|Trim(n)| >= 2 && ValidateEmail(e) && EmailInUse(existing, e) ==>
                    r == Rejected("An account with this email already exists"))
              && (|Trim(n)| >= 2 && ValidateEmail(e) && !EmailInUse(existing, e) && |p| < 6 ==>
                    r == Rejected("Password must be at least 6 characters"))
              && ((|Trim(n)| >= 2 && ValidateEmail(e) && !EmailInUse(existing, e) && |p| >= 6
                   && p != c) ==> r == Rejected("Passwords do not match"))
              && ((|Trim(n)| >= 2 && ValidateEmail(e) && !EmailInUse(existing, e) && |p| >= 6
                   && p == c && !(HasLetter(p) && HasDigit(p))) ==>
                    r == Rejected("Password must contain at least one letter and one number"))
              && (r.Accepted? <==> |Trim(n)| >= 2 && ValidateEmail(e) && !EmailInUse(existing, e)
                                   && |p| >= 6 && p == c && HasLetter(p) && HasDigit(p))
    ensures r.Accepted? ==> r.user == UserDraft(Trim(name.value), Lower(email.value), "user", "active")
    ensures r.Accepted? ==> |r.user.name| >= 2
    ensures r.Accepted? ==> forall i :: 0 <= i < |existing| ==>
                              !EqualsIgnoreCase(existing[i].email, r.user.email)
  {
    if !Filled(name) || !Filled(email) || !Filled(password) || !Filled(confirmPassword) then
      Rejected("All fields are required")
    else
      var n, e, p, c := name.value, email.value, password.value, confirmPassword.value;
      if |Trim(n)| < 2 then Rejected("Name must be at least 2 characters")
      else if !ValidateEmail(e) then Rejected("Please enter a valid email address")
      else if EmailInUse(existing, e) then Rejected("An account with this email already exists")
      else if |p| < 6 then Rejected("Password must be at least 6 characters")
      else if p != c then Rejected("Passwords do not match")
      else if !HasLetter(p) || !HasDigit(p) then
        Rejected("Password must contain at least one letter and one number")
      else
        EmailRegexShape(e);
        LowerKeepsNoWhitespace(e);
        TrimNoWhitespace(Lower(e));
        LowerIdempotent(e);
        Accepted(UserDraft(Trim(n), Trim(Lower(e)), "user", "active"))
  }

  /** The action: run the checks against the stored users and, when they pass,
      add the new user through the data service. */
  method Submit(ds: DataService, name: Option<string>, email: Option<string>,
                password: Option<string>, confirmPassword: Option<string>, today: string)
    returns (r: SignupOutcome, created: Option<User>)
    modifies ds`usersSlot
    ensures r == SignupCheck(name, email, password, confirmPassword, old(ds.Users()))
    ensures r.Rejected? ==> created.None? && ds.usersSlot == old(ds.usersSlot)
    ensures r.Accepted? ==> created == Some(NewUser(r.user, NextId(old(ds.Users()), UserId), today))
    ensures r.Accepted? && ds.hasWindow ==> ds.usersSlot == Some(old(ds.Users()) + [created.value])
    ensures r.Accepted? && !ds.hasWindow ==> ds.usersSlot == old(ds.usersSlot)
  {
    var users := ds.GetUsers();
    r := SignupCheck(name, email, password, confirmPassword, users);
    if r.Rejected? {
      return r, None;
    }
    var user := ds.AddUser(r.user, today);
    created := Some(user);
  }
}
