/**
 * What the REST handlers share: the decoded JSON request body, the error
 * responses they raise, the path-id check and the field validators that the
 * data-source and heat-pump handlers repeat for every field.
 */
module Requests {
  import opened Wrappers
  import opened PyText

  /** A decoded JSON value, as `json.loads` hands it to the handlers. */
  datatype Json =
    | JNull
    | JBool(b: bool)
    | JInt(i: int)
    | JFloat(f: real)
    | JString(s: string)
    | JArray(items: seq<Json>)
    | JObject(fields: map<string, Json>)

  /** A JSON object: the handlers' `new_values['data']` (or `new_values` itself for an import). */
  type Body = map<string, Json>

  /**
   * The `falcon.HTTPError`s the handlers raise, with their description codes;
   * `ServerError` stands for an uncaught Python exception (an HTTP 500).
   */
  datatype ApiError = BadRequest(description: string) | NotFound(description: string) | ServerError

  function StatusCode(e: ApiError): (code: int)
    ensures code in {400, 404, 500}
  {
    match e
    case BadRequest(_) => 400
    case NotFound(_) => 404
    case ServerError => 500
  }

  /** `isinstance(v, int)` and the integer it denotes: in Python `bool` is a subclass of `int`. */
  function AsInt(v: Json): Option<int> {
    match v
    case JInt(i) => Some(i)
    case JBool(b) => Some(if b then 1 else 0)
    case _ => None
  }

  /** `isinstance(v, float) or isinstance(v, int)` and the number it denotes. */
  function AsNumber(v: Json): Option<real> {
    match v
    case JFloat(f) => Some(f)
    case _ => if AsInt(v).Some? then Some(AsInt(v).value as real) else None
  }

  /**
   * The path-id guard `not id_.isdigit() or int(id_) <= 0`: the id is
   * accepted exactly when it is all digits and not all zeros.
   */
  function ParsePathId(s: string): (r: Option<nat>)
    ensures r.Some? <==> IsDigits(s) && exists i :: 0 <= i < |s| && s[i] != '0'
    ensures r.Some? ==> r.value >= 1 && r.value == DigitsValue(s)
  {
    if IsDigits(s) then
      DigitsValuePositive(s);
      if DigitsValue(s) > 0 then Some(DigitsValue(s)) else None
    else None
  }

  /** The id a create handler puts in `resp.location` is one the item handlers accept. */
  lemma PathIdRoundTrip(n: nat)
    requires n >= 1
    ensures ParsePathId(NatText(n)) == Some(n)
  {
    NatTextRoundTrip(n);
  }

  /**
   * The guard of an item handler: the path id must be a positive decimal
   * (else 400 with `invalidId`), then the row must exist (else 404 with
   * `notFound`).
   */
  function FindById<V>(rows: map<int, V>, idText: string, invalidId: string, notFound: string): (r: Result<int, ApiError>)
    ensures r.Success? <==> ParsePathId(idText).Some? && ParsePathId(idText).value in rows
    ensures r.Success? ==> r.value == ParsePathId(idText).value
    ensures r.Failure? ==> r.error == (if ParsePathId(idText).None? then BadRequest(invalidId) else NotFound(notFound))
  {
    var id := ParsePathId(idText);
    if id.None? then Failure(BadRequest(invalidId))
    else if id.value !in rows then Failure(NotFound(notFound))
    else Success(id.value)
  }

  /**
   * A required text field (`name`, `connection`): present, a `str`, not blank
   * after `str.strip`; the accepted value is the stripped text.
   */
  function RequireText(body: Body, key: string, error: string): (r: Result<string, ApiError>)
    ensures r.Success? <==> key in body && body[key].JString? && !AllSpace(body[key].s)
    ensures r.Failure? ==> r.error == BadRequest(error)
    ensures r.Success? ==> r.value == Strip(body[key].s) && r.value != []
  {
    StripEmptyIff(if key in body && body[key].JString? then body[key].s else "");
    if key !in body || !body[key].JString? || |Strip(body[key].s)| == 0 then Failure(BadRequest(error))
    else Success(Strip(body[key].s))
  }

  /** Re-submitting an accepted (stored) text value is accepted and stored unchanged. */
  lemma RequireTextStable(body: Body, key: string, error: string, again: Body)
    requires RequireText(body, key, error).Success?
    ensures RequireText(again[key := JString(RequireText(body, key, error).value)], key, error)
            == RequireText(body, key, error)
  {
    var v := RequireText(body, key, error).value;
    StripIdempotent(body[key].s);
    StripEmptyIff(v);
  }

  /** A required id field: `isinstance(v, int)` and `v > 0`. */
  function RequirePositiveInt(body: Body, key: string, error: string): (r: Result<int, ApiError>)
    ensures r.Success? <==> key in body && ((body[key].JInt? && body[key].i > 0) || body[key] == JBool(true))
    ensures r.Failure? ==> r.error == BadRequest(error)
    ensures r.Success? ==> r.value >= 1 && (body[key].JInt? ==> r.value == body[key].i)
  {
    if key !in body || AsInt(body[key]).None? || AsInt(body[key]).value <= 0 then Failure(BadRequest(error))
    else Success(AsInt(body[key]).value)
  }

  /**
   * An optional description: absent, `null` or `""` give no description;
   * any other string is stored stripped (so a blank one is stored as `""`);
   * any other value reaches `str.strip` with a non-`str` and raises.
   */
  function OptionalText(body: Body, key: string): (r: Result<Option<string>, ApiError>)
    ensures r == Success(None) <==> key !in body || body[key] == JNull || body[key] == JString("")
    ensures r.Failure? <==> key in body && !body[key].JNull? && !body[key].JString?
    ensures r.Failure? ==> r.error == ServerError
    ensures r.Success? && r.value.Some? ==> key in body && body[key].JString? && r.value.value == Strip(body[key].s)
  {
    if key !in body || body[key].JNull? then Success(None)
    else if !body[key].JString? then Failure(ServerError)
    else if body[key].s == "" then Success(None)
    else Success(Some(Strip(body[key].s)))
  }
}
