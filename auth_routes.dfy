/**
 * The backend's `/signup` and `/login` routes over an in-memory list of accounts: sign-up
 * checks the fields, refuses a taken username and appends the account; login looks for an
 * account with both the username and the password and answers with its class.
 */
module AuthRoutes {
  import opened Wrappers

  /** One stored account. */
  datatype UserRecord = UserRecord(username: string, password: string, userClass: string)

  /** The JSON body of a reply. */
  datatype Body =
    | ErrorBody(error: string)
    | MessageBody(message: string)
    | LoginBody(message: string, userClass: string)

  datatype Response = Response(status: int, body: Body)

  const FieldsRequired := Response(400, ErrorBody("All fields required"))
  const UserExists := Response(409, ErrorBody("User exists"))
  const SignupSuccessful := Response(200, MessageBody("Signup successful"))
  const InvalidCredentials := Response(401, ErrorBody("Invalid credentials"))

  /** A request-body field counts as given when present and not the empty string. */
  predicate Given(field: Option<string>) {
    field.Some? && field.value != ""
  }

  predicate UniqueUsernames(users: seq<UserRecord>) {
    forall i, j :: 0 <= i < j < |users| ==> users[i].username != users[j].username
  }

  /** `users.find(u => u.username === username)` finds something. */
  predicate Taken(users: seq<UserRecord>, username: Option<string>) {
    exists i :: 0 <= i < |users| && Some(users[i].username) == username
  }

  /** The reply to `POST /signup`: fields are checked before duplicates. */
  function SignupResponse(users: seq<UserRecord>, username: Option<string>, password: Option<string>, userClass: Option<string>): (r: Response)
    ensures !(Given(username) && Given(password) && Given(userClass)) ==> r == FieldsRequired
    ensures Given(username) && Given(password) && Given(userClass) && Taken(users, username) ==> r == UserExists
    ensures r == SignupSuccessful <==> Given(username) && Given(password) && Given(userClass) && !Taken(users, username)
  {
    if !Given(username) || !Given(password) || !Given(userClass) then FieldsRequired
    else if Taken(users, username) then UserExists
    else SignupSuccessful
  }

  /** The account list after `POST /signup`: one record appended on success, untouched otherwise. */
  function SignupState(users: seq<UserRecord>, username: Option<string>, password: Option<string>, userClass: Option<string>): (r: seq<UserRecord>)
    ensures SignupResponse(users, username, password, userClass) != SignupSuccessful ==> r == users
    ensures SignupResponse(users, username, password, userClass) == SignupSuccessful ==>
      r == users + [UserRecord(username.value, password.value, userClass.value)]
    ensures UniqueUsernames(users) ==> UniqueUsernames(r)
  {
    if SignupResponse(users, username, password, userClass) == SignupSuccessful then
      users + [UserRecord(username.value, password.value, userClass.value)]
    else users
  }

  /** Whether a record holds exactly this username and password. */
  predicate Matches(rec: UserRecord, username: Option<string>, password: Option<string>) {
    Some(rec.username) == username && Some(rec.password) == password
  }

  /** The first record with these credentials, or -1. */
  function CredentialIndex(users: seq<UserRecord>, username: Option<string>, password: Option<string>): (k: int)
    ensures -1 <= k < |users|
    ensures k == -1 <==> forall i :: 0 <= i < |users| ==> !Matches(users[i], username, password)
    ensures k >= 0 ==> Matches(users[k], username, password) && forall i :: 0 <= i < k ==> !Matches(users[i], username, password)
  {
    if users == [] then -1
    else if Matches(users[0], username, password) then 0
    else
      var k := CredentialIndex(users[1..], username, password);
      if k == -1 then -1 else k + 1
  }

  /** The reply to `POST /login`: the class of the first matching account, or 401. */
  function LoginResponse(users: seq<UserRecord>, username: Option<string>, password: Option<string>): (r: Response)
    ensures r.status == 200 <==> exists i :: 0 <= i < |users| && Matches(users[i], username, password)
    ensures r.status != 200 ==> r == InvalidCredentials
    ensures r.status == 200 ==> r.body == LoginBody("Login successful", users[CredentialIndex(users, username, password)].userClass)
  {
    var k := CredentialIndex(users, username, password);
    if k == -1 then InvalidCredentials else Response(200, LoginBody("Login successful", users[k].userClass))
  }

  /** A successful sign-up followed by a login with the same username and password answers with the class just given. */
  lemma SignupThenLogin(users: seq<UserRecord>, username: string, password: string, userClass: string)
    requires SignupResponse(users, Some(username), Some(password), Some(userClass)) == SignupSuccessful
    ensures LoginResponse(SignupState(users, Some(username), Some(password), Some(userClass)), Some(username), Some(password))
      == Response(200, LoginBody("Login successful", userClass))
  {
    var after := SignupState(users, Some(username), Some(password), Some(userClass));
    assert after == users + [UserRecord(username, password, userClass)];
    assert Matches(after[|users|], Some(username), Some(password));
    assert forall i :: 0 <= i < |users| ==> after[i] == users[i];
  }

  /** The module-level `users` array. */
  class UserRegistry {
    var users: seq<UserRecord>

    ghost predicate Valid()
      reads this
    {
      UniqueUsernames(users)
    }

    constructor ()
      ensures users == [] && Valid()
    {
      users := [];
    }

    /** `POST /signup`. */
    method Signup(username: Option<string>, password: Option<string>, userClass: Option<string>) returns (res: Response)
      modifies this
      ensures res == SignupResponse(old(users), username, password, userClass)
      ensures users == SignupState(old(users), username, password, userClass)
      ensures old(Valid()) ==> Valid()
    {
      if !Given(username) || !Given(password) || !Given(userClass) {
        return FieldsRequired;
      }
      var i := 0;
      while i < |users| && Some(users[i].username) != username
        invariant 0 <= i <= |users|
        invariant forall k :: 0 <= k < i ==> Some(users[k].username) != username
        decreases |users| - i
      {
        i := i + 1;
      }
      if i < |users| {
        return UserExists;
      }
      users := users + [UserRecord(username.value, password.value, userClass.value)];
      return SignupSuccessful;
    }

    /** `POST /login`: a scan for the first account with both credentials; the list is only read. */
    method Login(username: Option<string>, password: Option<string>) returns (res: Response)
      ensures res == LoginResponse(users, username, password)
    {
      var i := 0;
      while i < |users| && !Matches(users[i], username, password)
        invariant 0 <= i <= |users|
        invariant forall k :: 0 <= k < i ==> !Matches(users[k], username, password)
        decreases |users| - i
      {
        i := i + 1;
      }
      if i == |users| {
        res := InvalidCredentials;
      } else {
        res := Response(200, LoginBody("Login successful", users[i].userClass));
      }
    }
  }
}
