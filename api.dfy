/** The transport helper `api(path, { method, token, body })`: it shapes one
    HTTP request, decodes the response by its content type, and turns a
    non-success status into an error whose message is picked by a fixed
    priority. The `fetch` itself is not modelled: the response is an input. */
module Api {
  import opened Prelude
  import opened Js

  /** What a call to `api` settles to: the decoded data, or the error it
      throws (reduced to the error's `message`, the only part callers read). */
  datatype Outcome<T> = Ok(data: T) | Err(message: string)

  /** The second argument of `api`; `verb` is its `method`. A missing `verb`
      is `None` and takes the default; a missing `token` is `None`; a missing
      `body` is `Undefined`. */
  datatype Options = Options(verb: Option<string>, token: Option<string>, body: Value)

  datatype Header = Header(name: string, value: string)

  /** The request `fetch` is given; `body == Some(v)` means that the JSON
      serialisation of `v` is sent (`JSON.stringify` is not modelled). */
  datatype Request = Request(verb: string, path: string, headers: seq<Header>, body: Option<Value>)

  /** A response as `api` sees it. `json` is what `res.json()` would give and
      `text` what `res.text()` would give; only one of them is read. */
  datatype Response = Response(status: nat, contentType: Option<string>, text: string, json: Value)

  const JsonContentType := Header("Content-Type", "application/json")

  /** `token ? ... : ...` for the token strings the App passes. */
  predicate TokenTruthy(token: Option<string>)
  {
    token.Some? && token.value != ""
  }

  /** The method, headers and body `api` hands to `fetch`. */
  function BuildRequest(path: string, opts: Options): (r: Request)
    ensures r.path == path
    ensures opts.verb.None? ==> r.verb == "GET"
    ensures opts.verb.Some? ==> r.verb == opts.verb.value
    ensures |r.headers| >= 1 && r.headers[0] == JsonContentType
    ensures |r.headers| == if TokenTruthy(opts.token) then 2 else 1
    ensures forall h :: h in r.headers && h.name == "Content-Type" ==> h.value == "application/json"
    ensures (exists h :: h in r.headers && h.name == "Authorization") <==> TokenTruthy(opts.token)
    ensures forall h :: h in r.headers && h.name == "Authorization" ==> h.value == "Bearer " + opts.token.value
    ensures r.body.Some? <==> Truthy(opts.body)
    ensures r.body.Some? ==> r.body.value == opts.body
  {
    var verb := if opts.verb.Some? then opts.verb.value else "GET";
    var auth := if TokenTruthy(opts.token) then [Header("Authorization", "Bearer " + opts.token.value)] else [];
    var r := Request(verb, path, [JsonContentType] + auth, if Truthy(opts.body) then Some(opts.body) else None);
    assert TokenTruthy(opts.token) ==> r.headers[1] in r.headers;
    r
  }

  /** `res.headers.get("content-type") || ""` */
  function ContentType(res: Response): string
  {
    if res.contentType.Some? then res.contentType.value else ""
  }

  /** `ct.includes("application/json")` */
  predicate ReadsAsJson(res: Response)
  {
    Includes(ContentType(res), "application/json")
  }

  /** The decoded data: the JSON reading exactly when "application/json"
      occurs somewhere in the content type (a missing header counts as ""),
      otherwise the raw text. */
  function Decoded(res: Response): (v: Value)
    ensures (exists i :: OccursAt(ContentType(res), "application/json", i)) ==> v == res.json
    ensures !(exists i :: OccursAt(ContentType(res), "application/json", i)) ==> v == Str(res.text)
    ensures res.contentType.None? ==> v == Str(res.text)
  {
    IncludesIffOccurs(ContentType(res), "application/json");
    if ReadsAsJson(res) then res.json else Str(res.text)
  }

  /** `res.ok`: a status in 200..299. */
  predicate IsOk(status: nat)
  {
    200 <= status <= 299
  }

  /** The last resort `Request failed (<status>)`. */
  function FallbackMessage(status: nat): string
  {
    "Request failed (" + NatToString(status) + ")"
  }

  /** The value handed to `new Error(...)`:
      `(data && (data.message || data.error)) || (typeof data === "string" ? data : "") || fallback` */
  function ErrorValue(data: Value, status: nat): Value
  {
    Or(Or(And(data, Or(Get(data, "message"), Get(data, "error"))),
          if data.Str? then data else Str("")),
       Str(FallbackMessage(status)))
  }

  /** Each of `message` and `error` is absent, null or a string. */
  predicate PlainFields(data: Value)
  {
    var m := Get(data, "message");
    var e := Get(data, "error");
    (m.Undefined? || m.Null? || m.Str?) && (e.Undefined? || e.Null? || e.Str?)
  }

  /** The message of the error `api` throws for a non-success status, chosen
      in order: a truthy `message`, a truthy `error`, a non-empty string body,
      then the fallback naming the status. */
  function ErrorMessage(data: Value, status: nat): (m: string)
    ensures Truthy(Get(data, "message")) ==> m == ToJsString(Get(data, "message"))
    ensures !Truthy(Get(data, "message")) && Truthy(Get(data, "error")) ==> m == ToJsString(Get(data, "error"))
    ensures !Truthy(Get(data, "message")) && !Truthy(Get(data, "error")) && data.Str? && data.s != "" ==> m == data.s
    ensures !Truthy(Get(data, "message")) && !Truthy(Get(data, "error")) && !(data.Str? && data.s != "") ==> m == FallbackMessage(status)
    ensures PlainFields(data) ==> m != ""
  {
    ToJsString(ErrorValue(data, status))
  }

  /** What `api` settles to once the response is in: the decoded data when
      the status is a success, otherwise an error with ErrorMessage. */
  function Settle(res: Response): (r: Outcome<Value>)
    ensures r.Ok? <==> IsOk(res.status)
    ensures r.Ok? ==> r.data == Decoded(res)
    ensures r.Err? ==> r.message == ErrorMessage(Decoded(res), res.status)
    ensures r.Err? && PlainFields(Decoded(res)) ==> r.message != ""
  {
    var data := Decoded(res);
    if !IsOk(res.status) then Err(ErrorMessage(data, res.status)) else Ok(data)
  }

  /** A null or empty-string body, with no message or error field to read,
      falls through to the fallback. */
  lemma EmptyBodyFallsThrough(res: Response)
    requires !IsOk(res.status)
    requires Decoded(res) == Null || Decoded(res) == Str("")
    ensures Settle(res) == Err(FallbackMessage(res.status))
  {
  }

  /** The non-empty guarantee needs string fields: a `message` that is an
      empty array is truthy, so it is picked, and prints as "". */
  lemma EmptyArrayMessagePrintsEmpty(status: nat)
    ensures ErrorMessage(Obj(map["message" := Arr([])]), status) == ""
  {
  }
}
