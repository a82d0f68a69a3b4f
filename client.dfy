/**
 * The HTTP layer: the token store (an in-memory token mirrored to the session
 * store), the request headers, how a response becomes data or an `ApiError`,
 * the forced logout on 401, and the query strings of the paginated lists.
 * The transport itself and JSON parsing are parameters.
 */
module Client {

  import opened Wrappers
  import Text
  import Js

  /** The token holder; `logoutSignals` counts the "auth:logout" events raised. */
  class TokenStore {
    var token: Option<string>
    var saved: Option<string>
    var logoutSignals: nat

    /** At load the token is whatever the session store kept, an empty one read as none. */
    constructor (kept: Option<string>)
      ensures token == (if Js.Truthy(kept) then kept else None)
      ensures saved == kept && logoutSignals == 0
    {
      token := if Js.Truthy(kept) then kept else None;
      saved := kept;
      logoutSignals := 0;
    }

    /** `isSet()`: a token is held and is not empty. */
    predicate IsSet()
      reads this
    {
      Js.Truthy(token)
    }

    /** `set(t)`: held and saved as given, even when empty. */
    method Set(t: string)
      modifies this
      ensures token == Some(t) && saved == Some(t)
      ensures IsSet() <==> t != ""
      ensures logoutSignals == old(logoutSignals)
    {
      token, saved := Some(t), Some(t);
    }

    /** `clear()`: nothing held, nothing saved. */
    method Clear()
      modifies this
      ensures token == None && saved == None && !IsSet()
      ensures logoutSignals == old(logoutSignals)
    {
      token, saved := None, None;
    }

    /** `apiFetch` once the response is in: a 401 logs out before anything else;
        every other status is classified without touching the token. */
    method Receive(res: Response, parse: string -> Option<Js.Json>) returns (out: Outcome)
      modifies this
      ensures res.status == 401 ==> out == Failed(ApiError(401, SessionExpired, None))
      ensures res.status == 401 ==> token == None && saved == None && logoutSignals == old(logoutSignals) + 1
      ensures res.status != 401 ==> out == Classify(res, parse)
      ensures res.status != 401 ==> token == old(token) && saved == old(saved) && logoutSignals == old(logoutSignals)
    {
      if res.status == 401 {
        Clear();
        logoutSignals := logoutSignals + 1;
        return Failed(ApiError(401, SessionExpired, None));
      }
      out := Classify(res, parse);
    }
  }

  /** The headers of a request: JSON content type, the bearer token when one is set,
      then the caller's own headers, which win. */
  function Headers(token: Option<string>, extra: map<string, string>): (r: map<string, string>)
    ensures "Authorization" !in extra ==> ("Authorization" in r <==> Js.Truthy(token))
    ensures "Authorization" !in extra && Js.Truthy(token) ==> r["Authorization"] == "Bearer " + token.value
    ensures "Content-Type" in r
    ensures "Content-Type" !in extra ==> r["Content-Type"] == "application/json"
    ensures forall k :: k in extra ==> k in r && r[k] == extra[k]
    ensures forall k :: k in r ==> k in extra || k == "Content-Type" || k == "Authorization"
  {
    var base := map["Content-Type" := "application/json"];
    var auth := if Js.Truthy(token) then base["Authorization" := "Bearer " + token.value] else base;
    auth + extra
  }

  /** A response: its status and its body text. */
  datatype Response = Response(status: int, body: string)

  /** The error every failed call throws; `raw` is the parsed body, absent on 401. */
  datatype ApiError = ApiError(status: int, message: string, raw: Option<Js.Json>)

  datatype Outcome = Ok(data: Js.Json) | Failed(error: ApiError)

  const SessionExpired: string := "Sesión expirada. Por favor inicia sesión nuevamente."

  /** `res.ok`. */
  predicate IsOk(status: int) {
    200 <= status < 300
  }

  /** The body as data: null when empty, the parsed value, or the raw text when it
      is not JSON (`parse` answers None where `JSON.parse` throws). */
  function BodyData(body: string, parse: string -> Option<Js.Json>): (r: Js.Json)
    ensures body == "" ==> r == Js.JNull
    ensures body != "" && parse(body).Some? ==> r == parse(body).value
    ensures body != "" && parse(body).None? ==> r == Js.JString(body)
  {
    if body == "" then Js.JNull
    else if parse(body).Some? then parse(body).value
    else Js.JString(body)
  }

  /** The message of a failed call: the body's `message`, else its `error`, else the
      body itself when it is a non-empty text, else "Error <status>". */
  function ErrorMessage(data: Js.Json, status: int): (r: string)
    ensures Js.FieldTruthy(data, "message") ==> r == Js.ToJsString(Js.Field(data, "message").value)
    ensures !Js.FieldTruthy(data, "message") && Js.FieldTruthy(data, "error") ==>
      r == Js.ToJsString(Js.Field(data, "error").value)
    ensures !Js.FieldTruthy(data, "message") && !Js.FieldTruthy(data, "error") && data.JString? && data.s != "" ==>
      r == data.s
    ensures !Js.FieldTruthy(data, "message") && !Js.FieldTruthy(data, "error") && !(data.JString? && data.s != "") ==>
      r == "Error " + Text.IntToDecimal(status)
  {
    if Js.FieldTruthy(data, "message") then Js.ToJsString(Js.Field(data, "message").value)
    else if Js.FieldTruthy(data, "error") then Js.ToJsString(Js.Field(data, "error").value)
    else if data.JString? && data.s != "" then data.s
    else "Error " + Text.IntToDecimal(status)
  }

  /** The message is empty only when the field it comes from is an array that
      stringifies to nothing. */
  lemma ErrorMessageNonEmpty(data: Js.Json, status: int)
    requires !(Js.FieldTruthy(data, "message") && Js.Field(data, "message").value.JArray?)
    requires !(!Js.FieldTruthy(data, "message") && Js.FieldTruthy(data, "error") && Js.Field(data, "error").value.JArray?)
    ensures ErrorMessage(data, status) != ""
  {
    if Js.FieldTruthy(data, "message") {
      Js.TruthyStringNonEmpty(Js.Field(data, "message").value);
    } else if Js.FieldTruthy(data, "error") {
      Js.TruthyStringNonEmpty(Js.Field(data, "error").value);
    }
  }

  /** Everything after the 401 check: 204 is null without reading the body; an ok
      status yields the body as data; any other throws with the status, a message
      and the parsed body. */
  function Classify(res: Response, parse: string -> Option<Js.Json>): (r: Outcome)
    ensures res.status == 204 ==> r == Ok(Js.JNull)
    ensures r.Ok? <==> res.status == 204 || IsOk(res.status)
    ensures r.Ok? && res.status != 204 ==> r.data == BodyData(res.body, parse)
    ensures r.Failed? ==> r.error.status == res.status && r.error.raw == Some(BodyData(res.body, parse))
    ensures r.Failed? ==> r.error.message == ErrorMessage(BodyData(res.body, parse), res.status)
  {
    if res.status == 204 then Ok(Js.JNull)
    else
      var data := BodyData(res.body, parse);
      if !IsOk(res.status) then Failed(ApiError(res.status, ErrorMessage(data, res.status), Some(data)))
      else Ok(data)
  }

  /** A failed call whose body is not JSON reports the body text itself. */
  lemma PlainTextErrorBody(res: Response, parse: string -> Option<Js.Json>)
    requires !IsOk(res.status) && res.status != 204
    requires res.body != "" && parse(res.body).None?
    ensures Classify(res, parse) == Failed(ApiError(res.status, res.body, Some(Js.JString(res.body))))
  {
  }

  /** A failed call with an empty body reports "Error <status>", and its status reads back. */
  lemma EmptyErrorBody(status: int, parse: string -> Option<Js.Json>)
    requires !IsOk(status) && status != 204
    ensures Classify(Response(status, ""), parse).error.message == "Error " + Text.IntToDecimal(status)
    ensures Text.ParseInt(Classify(Response(status, ""), parse).error.message[6..]) == Some(status)
  {
    Text.IntToDecimalRoundTrip(status);
    var m := "Error " + Text.IntToDecimal(status);
    assert m[6..] == Text.IntToDecimal(status);
  }

  /** One query parameter, in the order it was set. */
  datatype Param = Param(key: string, value: string)

  /** The value of the parameter `key`, if it was set. */
  function Lookup(ps: seq<Param>, key: string): (r: Option<string>)
    ensures r.None? <==> forall i :: 0 <= i < |ps| ==> ps[i].key != key
    ensures r.Some? ==> Param(key, r.value) in ps
    ensures r.Some? ==> exists i :: 0 <= i < |ps| && ps[i] == Param(key, r.value) && forall j :: 0 <= j < i ==> ps[j].key != key
    decreases |ps|
  {
    if ps == [] then None
    else if ps[0].key == key then Some(ps[0].value)
    else
      var r := Lookup(ps[1..], key);
      assert r.Some? ==> Param(key, r.value) in ps by {
        if r.Some? {
          assert ps == [ps[0]] + ps[1..];
        }
      }
      r
  }

  /** Setting a parameter at the end leaves earlier keys as they were. */
  lemma {:induction false} LookupAppend(ps: seq<Param>, q: Param, key: string)
    ensures Lookup(ps + [q], key) ==
      if Lookup(ps, key).Some? then Lookup(ps, key) else if q.key == key then Some(q.value) else None
    decreases |ps|
  {
    if ps == [] {
      assert [] + [q] == [q];
    } else {
      assert (ps + [q])[1..] == ps[1..] + [q];
      LookupAppend(ps[1..], q, key);
    }
  }

  /** `ordersApi.list`: `status` only when truthy, then page and size (defaults 0 and 30);
      an absent number is one left undefined. */
  function OrdersListQuery(status: Option<string>, page: Option<int>, size: Option<int>): (r: seq<Param>)
    ensures Lookup(r, "status").Some? <==> Js.Truthy(status)
    ensures Js.Truthy(status) ==> Lookup(r, "status") == status
    ensures Lookup(r, "page") == Some(Text.IntToDecimal(page.GetOr(0)))
    ensures Lookup(r, "size") == Some(Text.IntToDecimal(size.GetOr(30)))
  {
    var tail := [Param("page", Text.IntToDecimal(page.GetOr(0))), Param("size", Text.IntToDecimal(size.GetOr(30)))];
    if Js.Truthy(status) then [Param("status", status.value)] + tail else tail
  }

  /** `reportsApi.topProducts`: page and size (defaults 0 and 10), then `from` and `to`
      whenever they are not null, even when empty. */
  function TopProductsQuery(page: Option<int>, size: Option<int>, from: Option<string>, to: Option<string>): (r: seq<Param>)
    ensures Lookup(r, "page") == Some(Text.IntToDecimal(page.GetOr(0)))
    ensures Lookup(r, "size") == Some(Text.IntToDecimal(size.GetOr(10)))
    ensures Lookup(r, "from") == from
    ensures Lookup(r, "to") == to
  {
    var head := [Param("page", Text.IntToDecimal(page.GetOr(0))), Param("size", Text.IntToDecimal(size.GetOr(10)))];
    var withFrom := if from.Some? then head + [Param("from", from.value)] else head;
    LookupAppend(head, Param("from", from.GetOr("")), "from");
    LookupAppend(head, Param("from", from.GetOr("")), "to");
    LookupAppend(head, Param("from", from.GetOr("")), "page");
    LookupAppend(head, Param("from", from.GetOr("")), "size");
    LookupAppend(withFrom, Param("to", to.GetOr("")), "from");
    LookupAppend(withFrom, Param("to", to.GetOr("")), "to");
    LookupAppend(withFrom, Param("to", to.GetOr("")), "page");
    LookupAppend(withFrom, Param("to", to.GetOr("")), "size");
    if to.Some? then withFrom + [Param("to", to.value)] else withFrom
  }

  /** The page number sent is the one asked for: it reads back unchanged. */
  lemma PageParamRoundTrip(status: Option<string>, page: int, size: int)
    ensures Text.ParseInt(Lookup(OrdersListQuery(status, Some(page), Some(size)), "page").value) == Some(page)
    ensures Text.ParseInt(Lookup(TopProductsQuery(Some(page), Some(size), None, None), "size").value) == Some(size)
  {
    Text.IntToDecimalRoundTrip(page);
    Text.IntToDecimalRoundTrip(size);
  }

  /** An empty status filter is dropped, while an empty date bound is still sent. */
  lemma EmptyFilterContrast()
    ensures Lookup(OrdersListQuery(Some(""), None, None), "status") == None
    ensures Lookup(TopProductsQuery(None, None, Some(""), None), "from") == Some("")
  {
  }
}
