/**
 * The older copy of `UserType` and `User` in the repository's root app.py. It behaves like
 * the one in app/app.py except that `is_admin` names an enum member that does not exist.
 */
module LegacyIdentity {
  import opened Wrappers

  /** The two members of this copy's `UserType`, named `user` and `admin`. */
  datatype UserType = Regular | Admin

  /** What looking up an attribute the enum does not define raises. */
  datatype PyError = AttributeError

  type Token = nat

  /** The name each member is declared under. */
  function Name(t: UserType): string {
    match t
    case Regular => "user"
    case Admin => "admin"
  }

  /** `UserType.<name>`: only the declared member names resolve; lookup is case-sensitive. */
  function Member(name: string): (r: Result<UserType, PyError>)
    ensures r.Success? <==> name in {"user", "admin"}
    ensures r.Failure? ==> r.error == AttributeError
  {
    if name == "user" then Success(Regular)
    else if name == "admin" then Success(Admin)
    else Failure(AttributeError)
  }

  /** Looking a member up by its declared name yields that member. */
  lemma MemberOfName(t: UserType)
    ensures Member(Name(t)) == Success(t)
  {
  }

  /** A name that resolves is the declared name of the member it yields. */
  lemma NameOfMember(name: string)
    ensures Member(name).Success? ==> Name(Member(name).value) == name
  {
  }

  /** `t == UserType.<name>`: evaluating the member raises before any comparison is made. */
  function IsMember(t: UserType, name: string): (r: Result<bool, PyError>)
    ensures r.Success? <==> Member(name).Success?
  {
    match Member(name)
    case Success(m) => Success(t == m)
    case Failure(e) => Failure(e)
  }

  /** Comparing with a member spelled as declared returns normally and tells that member apart. */
  lemma IsMemberOfName(t: UserType, u: UserType)
    ensures IsMember(u, Name(t)) == Success(u == t)
  {
    MemberOfName(t);
  }

  class User {
    const username: string
    const password: string
    const userType: UserType
    var sessionId: Option<Token>

    constructor (username: string, password: string, userType: UserType)
      ensures this.username == username && this.password == password && this.userType == userType
      ensures sessionId == None && !IsAuthenticated()
    {
      this.username := username;
      this.password := password;
      this.userType := userType;
      sessionId := None;
    }

    predicate IsAuthenticated()
      reads this
    {
      sessionId.Some?
    }

    method Login(password: string, token: Token) returns (ok: bool)
      modifies this
      ensures ok <==> password == this.password
      ensures ok ==> sessionId == Some(token) && IsAuthenticated()
      ensures !ok ==> sessionId == old(sessionId)
    {
      if this.password == password {
        sessionId := Some(token);
        return true;
      }
      return false;
    }

    method Logout()
      modifies this
      ensures sessionId == None && !IsAuthenticated()
    {
      sessionId := None;
    }

    /** As written: compares against `UserType.ADMIN`, so it raises for every user, admins included. */
    function IsAdmin(): (r: Result<bool, PyError>)
      ensures r == Failure(AttributeError)
    {
      IsMember(userType, "ADMIN")
    }

    /**
     * As intended (and as app/app.py writes it): comparing against the member `admin`
     * returns normally and tells exactly the admins apart.
     */
    function IsAdminIntended(): (r: Result<bool, PyError>)
      ensures r == Success(userType == Admin)
    {
      IsMember(userType, "admin")
    }
  }
}
