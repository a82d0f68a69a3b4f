/**
 * The login form: the empty-field guard, the choice of token among the response
 * shapes the backend may send, storing it before the app is told, and the
 * message shown on failure.
 */
module Login {

  import opened Wrappers
  import Js
  import Client

  const FieldsRequired: string := "Completa usuario y contraseña"
  const UnexpectedResponse: string := "Respuesta inesperada del servidor"
  const BadCredentials: string := "Credenciales incorrectas"

  /** `data?.token || data?.accessToken || data?.jwt || (data if it is a text)`:
      the first truthy candidate, if any. */
  function SelectToken(data: Js.Json): (r: Option<Js.Json>)
    ensures r.Some? ==> Js.JsonTruthy(r.value)
    ensures Js.FieldTruthy(data, "token") ==> r == Js.Field(data, "token")
    ensures !Js.FieldTruthy(data, "token") && Js.FieldTruthy(data, "accessToken") ==> r == Js.Field(data, "accessToken")
    ensures !Js.FieldTruthy(data, "token") && !Js.FieldTruthy(data, "accessToken") && Js.FieldTruthy(data, "jwt") ==>
      r == Js.Field(data, "jwt")
    ensures data.JString? ==> (r.Some? <==> data.s != "") && (r.Some? ==> r.value == data)
    ensures r.None? <==>
      !Js.FieldTruthy(data, "token") && !Js.FieldTruthy(data, "accessToken") && !Js.FieldTruthy(data, "jwt") &&
      !(data.JString? && data.s != "")
  {
    if Js.FieldTruthy(data, "token") then Js.Field(data, "token")
    else if Js.FieldTruthy(data, "accessToken") then Js.Field(data, "accessToken")
    else if Js.FieldTruthy(data, "jwt") then Js.Field(data, "jwt")
    else if data.JString? && data.s != "" then Some(data)
    else None
  }

  /** A token field wins over the later ones even when those are set too. */
  lemma TokenFieldWins(t: string, other: string)
    requires t != ""
    ensures SelectToken(Js.JObject(map["token" := Js.JString(t), "accessToken" := Js.JString(other)])) == Some(Js.JString(t))
    ensures SelectToken(Js.JObject(map["token" := Js.JString(""), "accessToken" := Js.JString(t)])) == Some(Js.JString(t))
  {
  }

  /** What the login call gave: a body, or a thrown error with its message. */
  datatype LoginResult = Answered(data: Js.Json) | Threw(message: string)

  /** The result of the call as the shared client produces it. */
  function FromOutcome(o: Client.Outcome): (r: LoginResult)
    ensures o.Ok? ==> r == Answered(o.data)
    ensures o.Failed? ==> r == Threw(o.error.message)
  {
    if o.Ok? then Answered(o.data) else Threw(o.error.message)
  }

  /** The message a failure leaves: its own, or the fixed one when it has none. */
  function FailureMessage(message: string): (r: string)
    ensures r != ""
    ensures message != "" ==> r == message
  {
    if message != "" then message else BadCredentials
  }

  /** Wrong credentials answered with 401 go through the shared client's logout path,
      so the form shows the session-expired text rather than "Credenciales incorrectas". */
  lemma RejectedLoginShowsSessionExpired()
    ensures FailureMessage(FromOutcome(Client.Failed(Client.ApiError(401, Client.SessionExpired, None))).message) ==
      Client.SessionExpired
  {
  }

  class LoginForm {
    var username: string
    var password: string
    var loading: bool
    var error: string
    /** How many times `onLogin` was called, and the token held at the latest call. */
    var logins: nat
    var tokenAtLogin: Option<string>

    constructor ()
      ensures username == "" && password == "" && !loading && error == ""
      ensures logins == 0 && tokenAtLogin == None
    {
      username, password, loading, error := "", "", false, "";
      logins, tokenAtLogin := 0, None;
    }

    /** `handleSubmit` with the call's result given: the guard, then the token choice;
        a chosen token is stored before `onLogin`; loading ends false after a call. */
    method Submit(tokens: Client.TokenStore, result: LoginResult)
      modifies this, tokens
      ensures username == old(username) && password == old(password)
      ensures tokens.logoutSignals == old(tokens.logoutSignals)
      ensures old(username) == "" || old(password) == "" ==>
        error == FieldsRequired && loading == old(loading) &&
        tokens.token == old(tokens.token) && tokens.saved == old(tokens.saved) &&
        logins == old(logins) && tokenAtLogin == old(tokenAtLogin)
      ensures old(username) != "" && old(password) != "" ==> !loading
      ensures old(username) != "" && old(password) != "" && result.Answered? && SelectToken(result.data).Some? ==>
        var t := Js.ToJsString(SelectToken(result.data).value);
        tokens.token == Some(t) && tokens.saved == Some(t) &&
        error == "" && logins == old(logins) + 1 && tokenAtLogin == Some(t)
      ensures old(username) != "" && old(password) != "" && result.Answered? && SelectToken(result.data).None? ==>
        error == UnexpectedResponse &&
        tokens.token == old(tokens.token) && tokens.saved == old(tokens.saved) &&
        logins == old(logins) && tokenAtLogin == old(tokenAtLogin)
      ensures old(username) != "" && old(password) != "" && result.Threw? ==>
        error == FailureMessage(result.message) &&
        tokens.token == old(tokens.token) && tokens.saved == old(tokens.saved) &&
        logins == old(logins) && tokenAtLogin == old(tokenAtLogin)
    {
      if username == "" || password == "" {
        error := FieldsRequired;
        return;
      }
      loading := true;
      error := "";
      match result {
        case Answered(data) =>
          var token := SelectToken(data);
          if token.None? {
            error := FailureMessage(UnexpectedResponse);
          } else {
            tokens.Set(Js.ToJsString(token.value));
            logins := logins + 1;
            tokenAtLogin := tokens.token;
          }
        case Threw(message) =>
          error := FailureMessage(message);
      }
      loading := false;
    }
  }
}
