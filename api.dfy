/** The HTTP client layer of the console: the bearer-token request rule, the response
    interceptor that turns every failed request into one error shape (and ends the session
    on 401), and the two helpers that turn errors into messages for the screens. */
module Api {
  import opened Js

  /** A failed request as the response interceptor sees it: the server answered with an
      error status, or no answer arrived, or the request could not be set up. `message` is
      the transport's own `error.message`. */
  datatype TransportError =
    | HttpError(status: int, data: Value, message: Value)
    | NoResponse(message: Value)
    | SetupError(message: Value)

  const NetworkErrorMessage := "Network error - please check your connection"

  /** The value the interceptor rejects with. */
  function NormalizeError(e: TransportError): (r: Value)
    ensures r.Obj? && "status" in r.fields && "message" in r.fields && "details" in r.fields
    ensures e.HttpError? ==> r.fields["status"] == Num(e.status as real)
    ensures e.HttpError? && Truthy(Get(e.data, "message")) ==> r.fields["message"] == Get(e.data, "message")
    ensures e.HttpError? && !Truthy(Get(e.data, "message")) ==> r.fields["message"] == e.message
    ensures e.HttpError? && Truthy(Get(e.data, "details")) ==> r.fields["details"] == Get(e.data, "details")
    ensures e.HttpError? && !Truthy(Get(e.data, "details")) ==> r.fields["details"] == Arr([])
    ensures e.HttpError? ==> r.fields.Keys == {"status", "message", "details", "timestamp"}
    ensures e.HttpError? ==> r.fields["timestamp"] == Get(e.data, "timestamp")
    ensures !e.HttpError? ==> r.fields.Keys == {"status", "message", "details"}
    ensures !e.HttpError? ==> r.fields["status"] == Num(0.0) && r.fields["details"] == Arr([])
    ensures e.NoResponse? ==> r.fields["message"] == Str(NetworkErrorMessage)
    ensures e.SetupError? ==> r.fields["message"] == e.message
  {
    match e
    case HttpError(status, data, message) =>
      var m := Get(data, "message");
      var d := Get(data, "details");
      Obj(map["status" := Num(status as real),
              "message" := if Truthy(m) then m else message,
              "details" := if Truthy(d) then d else Arr([]),
              "timestamp" := Get(data, "timestamp")])
    case NoResponse(_) =>
      Obj(map["status" := Num(0.0), "message" := Str(NetworkErrorMessage), "details" := Arr([])])
    case SetupError(message) =>
      Obj(map["status" := Num(0.0), "message" := message, "details" := Arr([])])
  }

  const DefaultErrorMessage := "An error occurred"

  /** `handleApiError(error, defaultMessage)`: a string error is its own message; otherwise the
      error's truthy `message`; otherwise the default. */
  function HandleApiError(error: Value, defaultMessage: string): (r: Value)
    ensures error.Str? ==> r == error
    ensures !error.Str? && Truthy(Get(error, "message")) ==> r == Get(error, "message")
    ensures !error.Str? && !Truthy(Get(error, "message")) ==> r == Str(defaultMessage)
    ensures Truthy(r) || error == Str("") || defaultMessage == ""
  {
    if error.Str? then error
    else if Truthy(Get(error, "message")) then Get(error, "message")
    else Str(defaultMessage)
  }

  /** The message a screen shows for a failed request, read back from the interceptor's
      shape: the server's message, the fixed network message, or the transport's message,
      falling back to the caller's default. */
  lemma HandleNormalizedError(e: TransportError, defaultMessage: string)
    ensures e.HttpError? && Truthy(Get(e.data, "message")) ==>
              HandleApiError(NormalizeError(e), defaultMessage) == Get(e.data, "message")
    ensures e.HttpError? && !Truthy(Get(e.data, "message")) && Truthy(e.message) ==>
              HandleApiError(NormalizeError(e), defaultMessage) == e.message
    ensures e.NoResponse? ==>
              HandleApiError(NormalizeError(e), defaultMessage) == Str(NetworkErrorMessage)
    ensures !e.NoResponse? && !Truthy(e.message) && !(e.HttpError? && Truthy(Get(e.data, "message"))) ==>
              HandleApiError(NormalizeError(e), defaultMessage) == Str(defaultMessage)
  {
    var r := NormalizeError(e);
    assert Get(r, "message") == r.fields["message"];
  }

  /** An `Error` thrown with a non-empty message is reported by that message. */
  lemma HandleThrownError(message: string, defaultMessage: string)
    requires message != ""
    ensures HandleApiError(ErrorObject(message), defaultMessage) == Str(message)
  {
    ErrorObjectMessage(message);
  }

  /** The object key a detail's `field` names, when it is a non-empty string. */
  function FieldOf(detail: Value): Option<string> {
    var f := Get(detail, "field");
    if f.Str? && f.s != "" then Some(f.s) else None
  }

  /** The accumulator after the `reduce` has folded `details`: each detail with a field sets
      that field to its message, later details overwriting earlier ones. */
  function ValidationMap(details: seq<Value>): map<string, Value> {
    if details == [] then map[]
    else
      var acc := ValidationMap(details[..|details| - 1]);
      var d := details[|details| - 1];
      match FieldOf(d)
      case Some(f) => acc[f := Get(d, "message")]
      case None => acc
  }

  /** A detail on which reading `detail.field` throws: `null` or `undefined`. */
  predicate HasMissingDetail(details: seq<Value>) {
    exists i :: 0 <= i < |details| && Nullish(details[i])
  }

  /** `handleValidationErrors(error)`: the field-to-message map of `error.details`, or `{}`
      when the details are not an array; a `null` or `undefined` detail makes the `reduce`
      throw a TypeError. */
  method HandleValidationErrors(error: Value) returns (r: Result<map<string, Value>>)
    ensures !Get(error, "details").Arr? ==> r == Ok(map[])
    ensures Get(error, "details").Arr? && HasMissingDetail(Get(error, "details").items) ==> r == Err(TypeErrorValue)
    ensures Get(error, "details").Arr? && !HasMissingDetail(Get(error, "details").items) ==>
              r == Ok(ValidationMap(Get(error, "details").items))
  {
    var details := Get(error, "details");
    if !details.Arr? {
      return Ok(map[]);
    }
    var ds := details.items;
    var acc := map[];
    var i := 0;
    while i < |ds|
      invariant 0 <= i <= |ds|
      invariant acc == ValidationMap(ds[..i])
      invariant forall j :: 0 <= j < i ==> !Nullish(ds[j])
    {
      if Nullish(ds[i]) {
        return Err(TypeErrorValue);
      }
      assert ds[..i + 1][..i] == ds[..i];
      var f := FieldOf(ds[i]);
      if f.Some? {
        acc := acc[f.value := Get(ds[i], "message")];
      }
      i := i + 1;
    }
    assert ds[..|ds|] == ds;
    return Ok(acc);
  }

  /** A field is in the map exactly when some detail names it. */
  lemma {:induction false} ValidationMapKeys(details: seq<Value>, k: string)
    ensures k in ValidationMap(details) <==> exists i :: 0 <= i < |details| && FieldOf(details[i]) == Some(k)
  {
    if details != [] {
      var init := details[..|details| - 1];
      ValidationMapKeys(init, k);
      if exists i :: 0 <= i < |init| && FieldOf(init[i]) == Some(k) {
        var i :| 0 <= i < |init| && FieldOf(init[i]) == Some(k);
        assert details[i] == init[i];
      }
      if exists i :: 0 <= i < |details| && FieldOf(details[i]) == Some(k) {
        var i :| 0 <= i < |details| && FieldOf(details[i]) == Some(k);
        if i < |init| {
          assert init[i] == details[i];
        }
      }
    }
  }

  /** The message kept for a field is the one of the last detail that names it. */
  lemma {:induction false} ValidationMapLastWins(details: seq<Value>, i: nat)
    requires i < |details| && FieldOf(details[i]).Some?
    requires forall j :: i < j < |details| ==> FieldOf(details[j]) != FieldOf(details[i])
    ensures FieldOf(details[i]).value in ValidationMap(details)
    ensures ValidationMap(details)[FieldOf(details[i]).value] == Get(details[i], "message")
  {
    var n := |details|;
    if i < n - 1 {
      var init := details[..n - 1];
      assert init[i] == details[i];
      forall j | i < j < |init| ensures FieldOf(init[j]) != FieldOf(init[i]) {
        assert init[j] == details[j];
      }
      ValidationMapLastWins(init, i);
    }
  }

  /** The browser session the client reads and ends: the stored token and the page location. */
  class Session {
    var authToken: Option<string>
    var location: string

    constructor (token: Option<string>, at: string)
      ensures authToken == token && location == at
    {
      authToken := token;
      location := at;
    }

    /** The request interceptor: `Authorization: Bearer <token>` is added exactly when a
        non-empty token is stored; the other headers are kept. */
    method AttachToken(headers: map<string, Value>) returns (out: map<string, Value>)
      ensures authToken.Some? && authToken.value != "" ==>
                out == headers["Authorization" := Str("Bearer " + authToken.value)]
      ensures authToken.None? || authToken.value == "" ==> out == headers
    {
      out := headers;
      if authToken.Some? && authToken.value != "" {
        out := out["Authorization" := Str("Bearer " + authToken.value)];
      }
    }

    /** The response interceptor's error path: a 401 removes the token and sends the page to
        `/login`; every error is rejected in the normalised shape. */
    method OnResponseError(e: TransportError) returns (rejection: Value)
      modifies this
      ensures rejection == NormalizeError(e)
      ensures e.HttpError? && e.status == 401 ==> authToken == None && location == "/login"
      ensures !(e.HttpError? && e.status == 401) ==> authToken == old(authToken) && location == old(location)
    {
      if e.HttpError? && e.status == 401 {
        authToken := None;
        location := "/login";
      }
      rejection := NormalizeError(e);
    }
  }
}
