/** Users and their session state (`UserType` and `User` in app/app.py). */
module Identity {
  import opened Wrappers

  /** The two members of `UserType`: `user` and `admin`. */
  datatype UserType = Regular | Admin

  /** A session id. The source draws a random UUID; here the caller supplies a fresh token. */
  type Token = nat

  class User {
    const username: string
    const password: string
    const userType: UserType
    var sessionId: Option<Token>

    constructor (username: string, password: string, userType: UserType)
      ensures this.username == username && this.password == password && this.userType == userType
      ensures sessionId == None && !IsAuthenticated()
    {
      this.username := username;
      this.password := password;
      this.userType := userType;
      sessionId := None;
    }

    /** A user is authenticated exactly while a session id is set. */
    predicate IsAuthenticated()
      reads this
    {
      sessionId.Some?
    }

    /** Roles are fixed at construction, so this reads no mutable state. */
    predicate IsAdmin() {
      userType == Admin
    }

    /** Compares the password in plain text; on a match starts the session `token`. */
    method Login(password: string, token: Token) returns (ok: bool)
      modifies this
      ensures ok <==> password == this.password
      ensures ok ==> sessionId == Some(token) && IsAuthenticated()
      ensures !ok ==> sessionId == old(sessionId)
    {
      if this.password == password {
        sessionId := Some(token);
        return true;
      }
      return false;
    }

    /** Ends the session, whatever the prior state; doing it twice is the same as once. */
    method Logout()
      modifies this
      ensures sessionId == None && !IsAuthenticated()
    {
      sessionId := None;
    }
  }
}
