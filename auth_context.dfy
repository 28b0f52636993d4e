/** The session store of src/context/AuthContext.jsx: the signed-in user, mirrored to
    browser storage under the key 'user'. Users are string records. */
module Auth {
  import opened Base

  type User = Record

  const DemoEmail := "user@example.com"
  const DemoPassword := "password123"
  const DummyToken := "dummy-jwt-token"
  const InvalidCredentials := "Invalid email or password"

  /** The fixed record a successful login signs in. */
  function DemoUser(): User
  {
    map["id" := "1", "name" := "John Doe", "email" := DemoEmail, "token" := DummyToken]
  }

  /** `{ id: <generated>, ...userData, token: 'dummy-jwt-token' }` */
  function Registered(userData: User, generatedId: string): (u: User)
    ensures u.Keys == userData.Keys + {"id", "token"}
    ensures u["token"] == DummyToken
    ensures u["id"] == (if "id" in userData then userData["id"] else generatedId)
    ensures forall k :: k in userData && k != "token" ==> u[k] == userData[k]
  {
    map["id" := generatedId] + userData + map["token" := DummyToken]
  }

  /** A truthy field of the signed-in user (`user?.id || null`, `user?.email`): None when
      there is no user or the field is missing or empty. */
  function UserField(user: Option<User>, key: string): (r: Option<string>)
    ensures r.Some? <==> user.Some? && Field(user.value, key) != ""
    ensures r.Some? ==> key in user.value && r.value == user.value[key]
  {
    if user.Some? && Field(user.value, key) != "" then Some(user.value[key]) else None
  }

  /** `user?.id || null` */
  function UserIdOf(user: Option<User>): Option<string>
  {
    UserField(user, "id")
  }

  /** `user?.email`, when it is truthy. */
  function UserEmailOf(user: Option<User>): Option<string>
  {
    UserField(user, "email")
  }

  datatype LoginResult = LoggedIn(user: User) | Rejected(message: string)

  class Session {
    var user: Option<User>
    /** The value under the storage key 'user' (None: absent). */
    var stored: Option<User>

    /** The provider's mount: the stored user, when there is one, becomes the current user. */
    constructor (saved: Option<User>)
      ensures user == saved && stored == saved
    {
      user := saved;
      stored := saved;
    }

    /** `login`: only the demo credentials sign in, as the fixed demo user, which is also
        stored; anything else is rejected with the same message and changes nothing. */
    method Login(email: string, password: string) returns (r: LoginResult)
      modifies this
      ensures r.LoggedIn? <==> email == DemoEmail && password == DemoPassword
      ensures r.LoggedIn? ==> r.user == DemoUser() && user == Some(DemoUser()) && stored == Some(DemoUser())
      ensures r.Rejected? ==> r.message == InvalidCredentials && user == old(user) && stored == old(stored)
    {
      if email == DemoEmail && password == DemoPassword {
        user := Some(DemoUser());
        stored := user;
        r := LoggedIn(DemoUser());
      } else {
        r := Rejected(InvalidCredentials);
      }
    }

    /** `register`: any profile is accepted; `generatedId` stands for the random id. */
    method Register(userData: User, generatedId: string) returns (u: User)
      modifies this
      ensures u == Registered(userData, generatedId)
      ensures user == Some(u) && stored == Some(u)
    {
      u := Registered(userData, generatedId);
      user := Some(u);
      stored := Some(u);
    }

    /** `logout` */
    method Logout()
      modifies this
      ensures user == None && stored == None
    {
      user := None;
      stored := None;
    }
  }

  /** After a successful login the checkout pages see the demo user's id and email. */
  lemma LoginIdentity()
    ensures UserIdOf(Some(DemoUser())) == Some("1")
    ensures UserEmailOf(Some(DemoUser())) == Some(DemoEmail)
  {
  }
}
