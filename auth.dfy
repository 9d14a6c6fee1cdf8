/** The authentication context: the signed-in user, the loading flag and
    the session entry kept in the browser's local storage. */
module Auth {
  import opened Wrappers

  datatype User = User(email: string, name: string)

  /** What `JSON.parse` does with the stored text: it throws, or it yields
      a user or `null`. */
  datatype ParseResult = Throws | Parsed(user: Option<User>)

  /** The local-storage key of the session entry. */
  const Key: string := "lumina_r_user"

  /** The provider's state. Local storage is a map; `JSON.stringify` and
      `JSON.parse` are the functions `encode` and `decode`, fixed when the
      session is created. */
  class AuthSession {
    var user: Option<User>
    var isLoading: bool
    var storage: map<string, string>
    const encode: User -> string
    const decode: string -> ParseResult

    /** The first render: no user, loading, storage as the browser has it. */
    constructor (stored: map<string, string>, encode: User -> string, decode: string -> ParseResult)
      ensures user == None && isLoading && storage == stored
      ensures this.encode == encode && this.decode == decode
    {
      user := None;
      isLoading := true;
      storage := stored;
      this.encode := encode;
      this.decode := decode;
    }

    /** `isAuthenticated` is `!!user`. */
    predicate IsAuthenticated()
      reads this
    {
      user.Some?
    }

    /** The mount effect. A missing or empty entry is skipped; an entry
        that parses becomes the user; one that throws is removed. Loading
        ends in every case. */
    method Mount()
      modifies this
      ensures !isLoading
      ensures Key !in old(storage) || old(storage)[Key] == "" ==>
        user == old(user) && storage == old(storage)
      ensures Key in old(storage) && old(storage)[Key] != "" && decode(old(storage)[Key]).Parsed? ==>
        user == decode(old(storage)[Key]).user && storage == old(storage)
      ensures Key in old(storage) && old(storage)[Key] != "" && decode(old(storage)[Key]).Throws? ==>
        user == old(user) && storage == old(storage) - {Key}
    {
      if Key in storage && storage[Key] != "" {
        var parsed := decode(storage[Key]);
        if parsed.Parsed? {
          user := parsed.user;
        } else {
          storage := storage - {Key};
        }
      }
      isLoading := false;
    }

    /** `login(u)`: the user is set and saved under the key. */
    method Login(u: User)
      modifies this
      ensures user == Some(u) && IsAuthenticated()
      ensures storage == old(storage)[Key := encode(u)]
      ensures isLoading == old(isLoading)
    {
      user := Some(u);
      storage := storage[Key := encode(u)];
    }

    /** `logout()`: the user is cleared and the entry removed. */
    method Logout()
      modifies this
      ensures user == None && !IsAuthenticated()
      ensures storage == old(storage) - {Key} && Key !in storage
      ensures isLoading == old(isLoading)
    {
      user := None;
      storage := storage - {Key};
    }
  }

  /** Logging in and then out leaves no session behind, from any state. */
  method LoginThenLogout(session: AuthSession, u: User)
    modifies session
    ensures !session.IsAuthenticated() && Key !in session.storage
    ensures session.storage == old(session.storage) - {Key}
  {
    session.Login(u);
    session.Logout();
  }

  /** A session survives a reload: a new provider over the storage left
      by `login(u)` restores `u`, provided the stored text is non-empty
      and parses back to `u`. */
  method ReloadAfterLogin(session: AuthSession, u: User) returns (reloaded: AuthSession)
    requires session.encode(u) != "" && session.decode(session.encode(u)) == Parsed(Some(u))
    modifies session
    ensures reloaded.user == Some(u) && !reloaded.isLoading
    ensures reloaded.storage == session.storage
  {
    session.Login(u);
    reloaded := new AuthSession(session.storage, session.encode, session.decode);
    reloaded.Mount();
  }

  /** `useAuth()`: outside a provider it throws. */
  function UseAuth(context: Option<AuthSession>): (r: Result<AuthSession, string>)
    ensures context.None? <==> r.Err?
    ensures r.Err? ==> r.error == "useAuth must be used within an AuthProvider"
    ensures context.Some? ==> r == Ok(context.value)
  {
    match context
    case None => Err("useAuth must be used within an AuthProvider")
    case Some(c) => Ok(c)
  }
}
