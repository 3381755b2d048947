/** Accounts, the password check and the in-memory session table of the HTTP handler. */
module Auth {
  import opened Json

  /** One entry of accounts.json. `changedPw` says that `pw` holds the md5 digest of the
      password rather than the password itself. */
  datatype Account = Account(pw: string, changedPw: bool, admin: bool)

  /** Who a page or a broadcast is prepared for. */
  datatype Viewer = Viewer(name: string, isAdmin: bool)

  /** The password policy: a hashed account compares the digest of the supplied password
      with the stored one, a legacy account compares the password itself. */
  predicate PasswordMatches(acc: Account, password: string, md5: string -> string)
  {
    if acc.changedPw then acc.pw == md5(password) else acc.pw == password
  }

  /** The account lookup and the three rejection cases of the login handler; `None` is the
      handler's `user = null`. */
  function CheckCredentials(accounts: map<string, Account>, user: string, password: string,
                            md5: string -> string): (r: Option<Account>)
    ensures r.Some? <==> user in accounts && PasswordMatches(accounts[user], password, md5)
    ensures r.Some? ==> r.value == accounts[user]
  {
    if user !in accounts then None
    else if accounts[user].changedPw && accounts[user].pw != md5(password) then None
    else if !accounts[user].changedPw && accounts[user].pw != password then None
    else Some(accounts[user])
  }

  /** Knowing the stored digest of a hashed account is not enough to log in with it
      (unless the digest happens to be a fixed point of md5). */
  lemma HashedAccountRejectsStoredDigest(accounts: map<string, Account>, user: string,
                                         md5: string -> string)
    requires user in accounts && accounts[user].changedPw
    requires md5(accounts[user].pw) != accounts[user].pw
    ensures CheckCredentials(accounts, user, accounts[user].pw, md5) == None
  {
  }

  /** An unknown user name never logs in, whatever the password. */
  lemma UnknownUserRejected(accounts: map<string, Account>, user: string, password: string,
                            md5: string -> string)
    requires user !in accounts
    ensures CheckCredentials(accounts, user, password, md5) == None
  {
  }

  // The login handler as written indexes the parsed accounts object with the user name
  // from the request body, so an inherited property name finds a truthy "account"
  // whose `pw` and `changed_pw` are both undefined.

  /** The rejection test of the login handler as written. `password` is `None` when the
      body has no password or a null one. A hashed account with no password makes `md5`
      throw, so the handler replies nothing and stores no session. */
  predicate LoginAcceptsAsWritten(accounts: map<string, Account>, user: string,
                                  password: Option<string>, md5: string -> string)
  {
    if user in accounts then
      password.Some? && PasswordMatches(accounts[user], password.value, md5)
    else
      // `undefined != password` is false exactly for an undefined or null password
      user in ObjectPrototypeKeys && password.None?
  }

  /** A body `{"username": "constructor"}` logs in as written although there is no such
      account; the corrected check refuses that user name with any password. */
  lemma PrototypeAccountLogsIn(md5: string -> string, password: string)
    ensures LoginAcceptsAsWritten(map[], "constructor", None, md5)
    ensures CheckCredentials(map[], "constructor", password, md5) == None
  {
    assert "constructor" in ObjectPrototypeKeys;
  }

  /** With a password present, the corrected check and the written one agree; they part
      only on an inherited user name without a password, which the corrected check never
      accepts because it only accepts user names of real accounts. */
  lemma CheckCredentialsRefinesAsWritten(accounts: map<string, Account>, user: string,
                                         password: string, md5: string -> string)
    ensures CheckCredentials(accounts, user, password, md5).Some? <==>
              LoginAcceptsAsWritten(accounts, user, Some(password), md5)
    ensures CheckCredentials(accounts, user, password, md5).Some? ==> user in accounts
  {
  }

  /** The session check of the request handler: a cookie token is present (and not empty),
      it is a key of the table, and the user name it maps to is not empty. Both emptiness
      tests come from JavaScript truthiness. */
  predicate Authenticated(sessions: map<string, string>, token: Option<string>)
  {
    token.Some? && token.value != "" && token.value in sessions && sessions[token.value] != ""
  }

  /** The process-lifetime table from session token to user name. */
  class SessionTable {
    var sessions: map<string, string>

    constructor ()
      ensures sessions == map[]
    {
      sessions := map[];
    }

    /** POST /login. `token` stands for the random session id the server generates.
        On success the table gains `token -> user` and the caller learns the token and
        the account's admin flag; on failure nothing changes and the reply carries no
        token. */
    method Login(accounts: map<string, Account>, user: string, password: string,
                 md5: string -> string, token: string)
      returns (sessionId: Option<string>, viewer: Option<Viewer>)
      modifies this
      ensures sessionId.Some? <==> user in accounts && PasswordMatches(accounts[user], password, md5)
      ensures sessionId.Some? ==>
                && sessionId == Some(token)
                && viewer == Some(Viewer(user, accounts[user].admin))
                && sessions == old(sessions)[token := user]
      ensures sessionId.None? ==> viewer.None? && sessions == old(sessions)
      ensures sessionId.Some? && token !in old(sessions) ==>
                && sessions.Keys == old(sessions).Keys + {token}
                && |sessions| == |old(sessions)| + 1
                && forall t :: t in old(sessions) ==> t in sessions && sessions[t] == old(sessions)[t]
    {
      var account := CheckCredentials(accounts, user, password, md5);
      if account.Some? {
        viewer := Some(Viewer(user, account.value.admin));
        sessions := sessions[token := user];
        sessionId := Some(token);
      } else {
        sessionId, viewer := None, None;
      }
    }

    /** GET /logout. The presented token (if any, and not empty) is removed; nothing else
        is. Afterwards the token no longer authenticates. */
    method Logout(token: Option<string>)
      modifies this
      ensures token.Some? && token.value != "" ==> sessions == old(sessions) - {token.value}
      ensures token.None? || token.value == "" ==> sessions == old(sessions)
      ensures forall t :: t in old(sessions) && Some(t) != token ==> t in sessions && sessions[t] == old(sessions)[t]
      ensures !Authenticated(sessions, token)
    {
      if token.Some? && token.value != "" {
        sessions := sessions - {token.value};
      }
    }
  }
}
