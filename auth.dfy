/** The client-side auth registry (createAuthStore): an AuthState of
    registered users, the current user and an authenticated flag, replaced
    step by step by register, login, logout and reset and written to the
    'authState' storage key after each change. Emails are compared with
    toLowerCase on both sides; passwords are compared exactly. */
module Auth {
  import opened Seqs
  import opened Text
  import opened Keyed

  datatype User = User(id: int, firstName: string, lastName: string, email: string,
                       password: string, createdAt: string)

  datatype AuthState = AuthState(users: seq<User>, currentUser: Option<User>, isAuthenticated: bool)

  const EmptyState := AuthState([], None, false)

  function UserId(u: User): int { u.id }

  /** users.some(u => u.email.toLowerCase() === email.toLowerCase()). */
  predicate EmailTaken(users: seq<User>, email: string)
  {
    exists i :: 0 <= i < |users| && EqualsIgnoreCase(users[i].email, email)
  }

  /** No two users' emails are equal ignoring case. */
  ghost predicate DistinctEmails(users: seq<User>)
  {
    forall i, j :: 0 <= i < j < |users| ==> !EqualsIgnoreCase(users[i].email, users[j].email)
  }

  predicate Credentials(u: User, email: string, password: string)
  {
    EqualsIgnoreCase(u.email, email) && u.password == password
  }

  /** users.find(u => emails equal ignoring case && passwords equal). */
  function FindLogin(users: seq<User>, email: string, password: string): (r: Option<User>)
    ensures r.None? <==> forall i :: 0 <= i < |users| ==> !Credentials(users[i], email, password)
    ensures r.Some? ==> exists k :: 0 <= k < |users| && users[k] == r.value
                                    && Credentials(users[k], email, password)
                                    && forall j :: 0 <= j < k ==> !Credentials(users[j], email, password)
  {
    if users == [] then None
    else if Credentials(users[0], email, password) then Some(users[0])
    else
      var t := FindLogin(users[1..], email, password);
      assert forall i :: 1 <= i < |users| ==> users[i] == users[1..][i - 1];
      assert t.Some? ==> exists k :: 0 <= k < |users| && users[k] == t.value
                                     && Credentials(users[k], email, password)
                                     && forall j :: 0 <= j < k ==> !Credentials(users[j], email, password) by {
        if t.Some? {
          var k :| 0 <= k < |users| - 1 && users[1..][k] == t.value
                   && Credentials(users[1..][k], email, password)
                   && forall j :: 0 <= j < k ==> !Credentials(users[1..][j], email, password);
          assert users[k + 1] == t.value;
        }
      }
      t
  }

  /** Appending a user whose email is not yet taken keeps emails distinct ignoring case. */
  lemma AppendUntakenKeepsDistinct(users: seq<User>, u: User)
    requires DistinctEmails(users) && !EmailTaken(users, u.email)
    ensures DistinctEmails(users + [u])
  {
    forall i, j | 0 <= i < j < |users| + 1
      ensures !EqualsIgnoreCase((users + [u])[i].email, (users + [u])[j].email)
    {
      if j == |users| {
        assert (users + [u])[j] == u;
        assert !EqualsIgnoreCase(users[i].email, u.email);
      }
    }
  }

  class AuthStore {
    const hasWindow: bool
    var users: seq<User>
    var currentUser: Option<User>
    var isAuthenticated: bool
    var stored: Option<AuthState>

    function State(): AuthState
      reads this
    {
      AuthState(users, currentUser, isAuthenticated)
    }

    /** getInitialState: the stored state when storage holds one, else the empty state. */
    constructor (hasWindow: bool, stored: Option<AuthState>)
      ensures this.hasWindow == hasWindow && this.stored == stored
      ensures State() == if hasWindow && stored.Some? then stored.value else EmptyState
    {
      this.hasWindow := hasWindow;
      this.stored := stored;
      var s := if hasWindow && stored.Some? then stored.value else EmptyState;
      users, currentUser, isAuthenticated := s.users, s.currentUser, s.isAuthenticated;
    }

    method Persist()
      modifies this`stored
      ensures stored == if hasWindow then Some(State()) else old(stored)
    {
      if hasWindow {
        stored := Some(State());
      }
    }

    method Register(firstName: string, lastName: string, email: string, password: string,
                    now: string)
      returns (success: bool, error: string)
      modifies this`users, this`stored
      ensures success <==> !EmailTaken(old(users), email)
      ensures !success ==> error == "Email already registered"
                           && users == old(users) && stored == old(stored)
      ensures success ==> error == ""
                          && users == old(users) + [User(NextId(old(users), UserId), firstName,
                                                         lastName, email, password, now)]
                          && stored == if hasWindow then Some(State()) else old(stored)
      ensures DistinctEmails(old(users)) ==> DistinctEmails(users)
    {
      if EmailTaken(users, email) {
        return false, "Email already registered";
      }
      var id := if |users| > 0 then MaxId(users, UserId) + 1 else 1;
      var newUser := User(id, firstName, lastName, email, password, now);
      if DistinctEmails(users) {
        AppendUntakenKeepsDistinct(users, newUser);
      }
      users := users + [newUser];
      Persist();
      success, error := true, "";
    }

    method Login(email: string, password: string) returns (success: bool, error: string)
      modifies this`currentUser, this`isAuthenticated, this`stored
      ensures success <==> exists i :: 0 <= i < |users| && Credentials(users[i], email, password)
      ensures !success ==> error == "Invalid email or password"
                           && currentUser == old(currentUser)
                           && isAuthenticated == old(isAuthenticated) && stored == old(stored)
      ensures success ==> error == "" && currentUser == FindLogin(users, email, password)
                          && isAuthenticated
                          && stored == if hasWindow then Some(State()) else old(stored)
    {
      var user := FindLogin(users, email, password);
      if user.None? {
        return false, "Invalid email or password";
      }
      currentUser, isAuthenticated := user, true;
      Persist();
      success, error := true, "";
    }

    method Logout()
      modifies this`currentUser, this`isAuthenticated, this`stored
      ensures currentUser.None? && !isAuthenticated
      ensures stored == if hasWindow then Some(State()) else old(stored)
    {
      currentUser, isAuthenticated := None, false;
      Persist();
    }

    /** Reads through an update callback that hands the state back unchanged. */
    method EmailExists(email: string) returns (taken: bool)
      ensures taken <==> exists i :: 0 <= i < |users| && Lower(users[i].email) == Lower(email)
    {
      taken := EmailTaken(users, email);
    }

    method GetCurrentUser() returns (user: Option<User>)
      ensures user == currentUser
    {
      user := currentUser;
    }

    method Reset()
      modifies this`users, this`currentUser, this`isAuthenticated, this`stored
      ensures State() == EmptyState && DistinctEmails(users)
      ensures stored == if hasWindow then Some(EmptyState) else old(stored)
    {
      users, currentUser, isAuthenticated := [], None, false;
      Persist();
    }
  }
}
