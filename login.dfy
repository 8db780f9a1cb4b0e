/** The sign-in form (components/Login.tsx): a credential lookup in the
    in-memory user list, with rejected accounts refused. */
module Login {
  import opened Seqs
  import opened Types

  /** The message the form shows; `NoError` is the empty string. */
  datatype LoginError = NoError | AccountRejected | BadCredentials

  /** What one attempt ends in: `onLogin(user)` is called, or an error is shown. */
  datatype Outcome = SignedIn(user: User) | Refused(error: LoginError)

  predicate CredentialsMatch(u: User, phone: string, password: string)
  {
    u.phone == phone && u.password == Some(password)
  }

  /** `users.find(u => u.phone === phone && u.password === password)`. */
  function FindAccount(users: seq<User>, phone: string, password: string): (r: Option<User>)
    ensures r.None? <==> forall i :: 0 <= i < |users| ==> !CredentialsMatch(users[i], phone, password)
    ensures r.Some? ==>
      exists k :: 0 <= k < |users| && users[k] == r.value && CredentialsMatch(users[k], phone, password) &&
        forall j :: 0 <= j < k ==> !CredentialsMatch(users[j], phone, password)
  {
    Find(users, u => CredentialsMatch(u, phone, password))
  }

  /** The decision taken when the simulated delay ends. */
  function Authenticate(users: seq<User>, phone: string, password: string): (r: Outcome)
    ensures r.SignedIn? ==> r.user in users && CredentialsMatch(r.user, phone, password) && r.user.status != Rejected
    ensures r == Refused(BadCredentials) <==> forall i :: 0 <= i < |users| ==> !CredentialsMatch(users[i], phone, password)
    ensures r == Refused(AccountRejected) <==> FindAccount(users, phone, password).Some? && FindAccount(users, phone, password).value.status == Rejected
    ensures r.Refused? ==> r.error != NoError
  {
    match FindAccount(users, phone, password)
    case None => Refused(BadCredentials)
    case Some(u) => if u.status == Rejected then Refused(AccountRejected) else SignedIn(u)
  }

  /** Only a rejected account is held back: the first account with these
      credentials signs in whenever it is pending or approved. */
  lemma OnlyRejectedIsBlocked(users: seq<User>, k: nat, phone: string, password: string)
    requires k < |users| && CredentialsMatch(users[k], phone, password)
    requires forall j :: 0 <= j < k ==> !CredentialsMatch(users[j], phone, password)
    ensures users[k].status != Rejected ==> Authenticate(users, phone, password) == SignedIn(users[k])
    ensures users[k].status == Rejected ==> Authenticate(users, phone, password) == Refused(AccountRejected)
  {
  }

  /** `find` returns the first account with the credentials, wherever it sits. */
  lemma FirstMatchIsFound(users: seq<User>, k: nat, phone: string, password: string)
    requires k < |users| && CredentialsMatch(users[k], phone, password)
    requires forall j :: 0 <= j < k ==> !CredentialsMatch(users[j], phone, password)
    ensures FindAccount(users, phone, password) == Some(users[k])
  {
  }

  /** Accounts added at the end of the list (sign-ups, new employees) never
      change how an existing account's credentials resolve. */
  lemma AppendKeepsSignIn(users: seq<User>, added: seq<User>, phone: string, password: string)
    requires FindAccount(users, phone, password).Some?
    ensures Authenticate(users + added, phone, password) == Authenticate(users, phone, password)
  {
    FindAppend(users, added, u => CredentialsMatch(u, phone, password));
  }

  /** The form's state: the two inputs, the error line, the spinner, and the
      credentials the running timer will check. The timer's callback closes
      over the inputs of the render that submitted, so later typing does not
      reach it. */
  class LoginForm {
    var phone: string
    var password: string
    var error: LoginError
    var loading: bool
    var pending: Option<(string, string)>

    /** A running timer shows the spinner. */
    predicate Valid()
      reads this
    {
      pending.Some? ==> loading
    }

    constructor ()
      ensures Valid()
      ensures phone == "" && password == "" && error == NoError && !loading && pending == None
    {
      phone, password, error, loading, pending := "", "", NoError, false, None;
    }

    method EditPhone(value: string)
      modifies this`phone
      ensures phone == value
    {
      phone := value;
    }

    method EditPassword(value: string)
      modifies this`password
      ensures password == value
    {
      password := value;
    }

    /** Submitting starts the spinner, clears the previous error and starts the
        timer over the current inputs; the submit button is disabled while the
        spinner shows. */
    method Submit()
      requires Valid() && !loading
      modifies this`loading, this`error, this`pending
      ensures Valid()
      ensures loading && error == NoError && pending == Some((phone, password))
    {
      loading := true;
      error := NoError;
      pending := Some((phone, password));
    }

    /** The delay after a submit ends: look up the credentials captured at the submit. */
    method DelayElapsed(users: seq<User>) returns (signedIn: Option<User>)
      requires Valid() && pending.Some?
      modifies this`loading, this`error, this`pending
      ensures Valid() && pending == None
      ensures var o := Authenticate(users, old(pending).value.0, old(pending).value.1);
        (o.SignedIn? ==> signedIn == Some(o.user) && error == old(error) && loading == old(loading)) &&
        (o.Refused? ==> signedIn == None && error == o.error && !loading)
    {
      var (ph, pw) := pending.value;
      pending := None;
      var found := FindAccount(users, ph, pw);
      if found.Some? {
        if found.value.status == Rejected {
          error := AccountRejected;
          loading := false;
          return None;
        }
        signedIn := found;
      } else {
        error := BadCredentials;
        loading := false;
        signedIn := None;
      }
    }
  }

  /** Typing during the spinner does not change the attempt: the account whose
      credentials were submitted signs in whatever the password field holds
      when the delay ends. */
  method EditDuringDelay(f: LoginForm, users: seq<User>, u: User, typed: string) returns (signedIn: Option<User>)
    requires f.Valid() && !f.loading
    requires FindAccount(users, f.phone, f.password) == Some(u) && u.status != Rejected
    modifies f
    ensures signedIn == Some(u) && f.password == typed
  {
    f.Submit();
    f.EditPassword(typed);
    signedIn := f.DelayElapsed(users);
  }
}
