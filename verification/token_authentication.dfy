/**
 * The `src/auth` token authentication plugin: a fixed table from token to
 * authentication result; `isValidUser` resolves to the table entry or to `null`.
 */
module AuthTokenAuthentication {
  import opened Base
  import opened Protocol

  datatype ServerData = ServerData(admin: bool)
  datatype ClientData = ClientData(theme: string)

  /** A `DeepstreamAuthenticationResult`. */
  datatype AuthenticationResult = AuthenticationResult(
    isValid: bool, id: string, serverData: ServerData, clientData: ClientData)

  /** The `TOKENS` table. */
  const Tokens: map<string, AuthenticationResult> := map[
    "ABC" := AuthenticationResult(true, "John", ServerData(true), ClientData("red")),
    "123" := AuthenticationResult(true, "Bob", ServerData(false), ClientData("blue"))
  ]

  /** `isValidUser(connectionData, authData)`: the value the returned promise resolves to (`None` is `null`). */
  function IsValidUser<C>(connectionData: C, token: AuthToken): (r: Option<AuthenticationResult>)
    ensures token.NonStringToken? ==> r == None
    ensures token == StringToken("ABC") ==>
              r == Some(AuthenticationResult(true, "John", ServerData(true), ClientData("red")))
    ensures token == StringToken("123") ==>
              r == Some(AuthenticationResult(true, "Bob", ServerData(false), ClientData("blue")))
    ensures token.StringToken? && token.value != "ABC" && token.value != "123" ==> r == None
    ensures r.Some? ==> r.value.isValid
  {
    if token.NonStringToken? then None
    else if token.value in Tokens then Some(Tokens[token.value])
    else None
  }

  /** The result depends on the token alone. */
  lemma IgnoresConnectionData<C>(c1: C, c2: C, token: AuthToken)
    ensures IsValidUser(c1, token) == IsValidUser(c2, token)
  {
  }
}

/**
 * The `src` token authentication plugin, callback style: a fixed table from
 * token to user data, and one callback call with the verdict and that data or
 * an error text for the client.
 */
module TokenAuthentication {
  import opened Base
  import opened Protocol

  datatype ServerData = ServerData(admin: bool)

  /** `clientData`: a theme for a known user, an error text otherwise. */
  datatype ClientData = Theme(theme: string) | Error(error: string)

  /** The object passed to the callback; an error reply carries only `clientData`. */
  datatype UserData = UserData(username: Option<string>, serverData: Option<ServerData>, clientData: ClientData)

  /** The callback's arguments `(isValid, data)`. */
  datatype AuthCall = AuthCall(isValid: bool, data: UserData)

  const John := UserData(Some("John"), Some(ServerData(true)), Theme("red"))
  const Bob := UserData(Some("Bob"), Some(ServerData(false)), Theme("blue"))

  /** The `TOKENS` table. */
  const Tokens: map<string, UserData> := map["ABC" := John, "123" := Bob]

  /** `isValidUser(connectionData, authData, callback)`: the single callback call it makes. */
  function IsValidUser<C>(connectionData: C, token: AuthToken): (call: AuthCall)
    ensures token.NonStringToken? ==> call == AuthCall(false, UserData(None, None, Error("Missing token")))
    ensures token == StringToken("ABC") ==> call == AuthCall(true, John)
    ensures token == StringToken("123") ==> call == AuthCall(true, Bob)
    ensures token.StringToken? && token.value != "ABC" && token.value != "123" ==>
              call == AuthCall(false, UserData(None, None, Error("Invalid Token")))
    ensures call.isValid <==> token.StringToken? && token.value in Tokens
  {
    if token.NonStringToken? then
      AuthCall(false, UserData(None, None, Error("Missing token")))
    else if token.value in Tokens then
      AuthCall(true, Tokens[token.value])
    else
      AuthCall(false, UserData(None, None, Error("Invalid Token")))
  }

  /** "ABC" is the admin John, "123" the non-admin Bob. */
  lemma KnownUsers()
    ensures Tokens["ABC"].username == Some("John") && Tokens["ABC"].serverData == Some(ServerData(true))
    ensures Tokens["123"].username == Some("Bob") && Tokens["123"].serverData == Some(ServerData(false))
    ensures Tokens.Keys == {"ABC", "123"}
  {
  }
}

/**
 * The repository-root token authentication plugin: its own copy of the table
 * and the same callback logic as the `src` plugin.
 */
module RootTokenAuthentication {
  import opened Base
  import opened Protocol
  import Src = TokenAuthentication

  /** The root file's `TOKENS` table. */
  const Tokens: map<string, Src.UserData> := map[
    "ABC" := Src.UserData(Some("John"), Some(Src.ServerData(true)), Src.Theme("red")),
    "123" := Src.UserData(Some("Bob"), Some(Src.ServerData(false)), Src.Theme("blue"))
  ]

  /** `isValidUser(connectionData, authData, callback)`: the single callback call it makes. */
  function IsValidUser<C>(connectionData: C, token: AuthToken): (call: Src.AuthCall)
    ensures token.NonStringToken? ==> call == Src.AuthCall(false, Src.UserData(None, None, Src.Error("Missing token")))
    ensures token == StringToken("ABC") ==>
              call == Src.AuthCall(true, Src.UserData(Some("John"), Some(Src.ServerData(true)), Src.Theme("red")))
    ensures token == StringToken("123") ==>
              call == Src.AuthCall(true, Src.UserData(Some("Bob"), Some(Src.ServerData(false)), Src.Theme("blue")))
    ensures token.StringToken? && token.value != "ABC" && token.value != "123" ==>
              call == Src.AuthCall(false, Src.UserData(None, None, Src.Error("Invalid Token")))
  {
    if token.NonStringToken? then
      Src.AuthCall(false, Src.UserData(None, None, Src.Error("Missing token")))
    else if token.value in Tokens then
      Src.AuthCall(true, Tokens[token.value])
    else
      Src.AuthCall(false, Src.UserData(None, None, Src.Error("Invalid Token")))
  }

  /** The root plugin answers every token exactly as the `src` plugin does. */
  lemma AgreesWithSrcPlugin<C>(connectionData: C, token: AuthToken)
    ensures IsValidUser(connectionData, token) == Src.IsValidUser(connectionData, token)
  {
    assert Tokens == Src.Tokens;
  }
}
