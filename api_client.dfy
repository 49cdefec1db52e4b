/** The fetch wrapper of the NeuroMed front end
    (healthcare-frontend/NeuroMed-2f/lib/api-client.ts): the request URL
    with its query parameters, the default and caller headers, how a
    failed answer becomes the thrown error, and the registration body.

    `new URL(...)` and `url.toString()` (parsing, percent-encoding) are not
    modelled: a URL is the joined path and the list of appended query
    pairs. The answer of `fetch` is a parameter. */
module ApiClient {
  import opened Js
  import opened Text
  import opened TokenStore

  /** A query parameter's value: `string | number | boolean`. */
  datatype Param = Text(s: string) | Number(n: int) | Flag(b: bool)

  datatype Url = Url(path: string, query: seq<(string, string)>)

  /** `String(value)`. */
  function ParamText(p: Param): (s: string)
    ensures p.Text? ==> s == p.s
    ensures p.Flag? ==> s == (if p.b then "true" else "false")
    ensures p.Number? ==> s == IntToString(p.n)
  {
    match p
    case Text(s) => s
    case Number(n) => IntToString(n)
    case Flag(b) => if b then "true" else "false"
  }

  /** `buildUrl`: one query pair per entry of `params`, in the order
      `Object.entries` lists them, each value turned into a string; no
      parameters give no query. */
  method BuildUrl(baseUrl: string, endpoint: string, params: Option<seq<(string, Param)>>) returns (url: Url)
    ensures url.path == baseUrl + endpoint
    ensures params.None? ==> url.query == []
    ensures params.Some? ==> |url.query| == |params.value|
    ensures params.Some? ==> forall i :: 0 <= i < |params.value| ==>
              url.query[i] == (params.value[i].0, ParamText(params.value[i].1))
  {
    url := Url(baseUrl + endpoint, []);
    if params.Some? {
      var entries := params.value;
      var i := 0;
      while i < |entries|
        invariant 0 <= i <= |entries|
        invariant url.path == baseUrl + endpoint
        invariant |url.query| == i
        invariant forall j :: 0 <= j < i ==> url.query[j] == (entries[j].0, ParamText(entries[j].1))
      {
        url := url.(query := url.query + [(entries[i].0, ParamText(entries[i].1))]);
        i := i + 1;
      }
    }
  }

  /** `getAuthHeaders`: always `Content-Type: application/json`; a bearer
      `Authorization` iff running in a browser with a non-empty stored
      access token; nothing else. */
  function AuthHeaders(inBrowser: bool, items: map<string, string>): (h: map<string, string>)
    ensures "Content-Type" in h && h["Content-Type"] == "application/json"
    ensures "Authorization" in h <==> inBrowser && Present(Item(items, AccessKey))
    ensures "Authorization" in h ==> h["Authorization"] == "Bearer " + items[AccessKey]
    ensures h.Keys <= {"Content-Type", "Authorization"}
  {
    var token := if inBrowser then Item(items, AccessKey) else None;
    var headers := map["Content-Type" := "application/json"];
    if Present(token) then headers["Authorization" := "Bearer " + token.value] else headers
  }

  /** `{ ...defaults, ...caller }`: a caller header replaces the default of
      the same name; the others are kept. */
  function MergeHeaders(defaults: map<string, string>, caller: map<string, string>): (h: map<string, string>)
    ensures h.Keys == defaults.Keys + caller.Keys
    ensures forall k :: k in caller ==> h[k] == caller[k]
    ensures forall k :: k in defaults && k !in caller ==> h[k] == defaults[k]
  {
    defaults + caller
  }

  /** The merged headers always carry a `Content-Type`: the caller's if it
      gives one, 'application/json' otherwise. */
  lemma CallerHeadersWin(inBrowser: bool, items: map<string, string>, caller: map<string, string>)
    ensures "Content-Type" in MergeHeaders(AuthHeaders(inBrowser, items), caller)
    ensures "Content-Type" in caller ==>
              MergeHeaders(AuthHeaders(inBrowser, items), caller)["Content-Type"] == caller["Content-Type"]
    ensures "Content-Type" !in caller ==>
              MergeHeaders(AuthHeaders(inBrowser, items), caller)["Content-Type"] == "application/json"
  {
  }

  /** What `request` settles with. */
  datatype Reply =
    | Data(body: Value)          // the parsed JSON of an ok answer
    | Thrown(message: Value)     // `new Error(message)`
    | TypeErrorThrown            // reading a property of a `null` error body
    | ParseErrorThrown           // an ok answer whose body is not JSON

  /** The error body a non-ok answer is read as: the parsed JSON, or
      `{ detail: 'HTTP Error: <status>' }` when it does not parse. */
  function ErrorData(status: int, body: Option<Value>): (v: Value)
    ensures body.Some? ==> v == body.value
    ensures body.None? ==> v == Obj([("detail", Str("HTTP Error: " + IntToString(status)))])
  {
    if body.Some? then body.value else Obj([("detail", Str("HTTP Error: " + IntToString(status)))])
  }

  /** `errorData.detail || errorData.message || 'API Error: <status>'`. A
      property of a non-object (other than `null`) reads as undefined. */
  function ErrorMessage(status: int, errorData: Value): (r: Reply)
    ensures errorData.Null? <==> r.TypeErrorThrown?
    ensures errorData.Obj? && Truthy(Get(errorData.fields, "detail")) ==> r == Thrown(Get(errorData.fields, "detail"))
    ensures errorData.Obj? && !Truthy(Get(errorData.fields, "detail")) && Truthy(Get(errorData.fields, "message")) ==>
              r == Thrown(Get(errorData.fields, "message"))
    ensures !errorData.Null? && !(errorData.Obj? && (Truthy(Get(errorData.fields, "detail")) || Truthy(Get(errorData.fields, "message")))) ==>
              r == Thrown(Str("API Error: " + IntToString(status)))
  {
    if errorData.Null? then TypeErrorThrown
    else
      var detail := if errorData.Obj? then Get(errorData.fields, "detail") else Undefined;
      var message := if errorData.Obj? then Get(errorData.fields, "message") else Undefined;
      if Truthy(detail) then Thrown(detail)
      else if Truthy(message) then Thrown(message)
      else Thrown(Str("API Error: " + IntToString(status)))
  }

  /** The outcome of `request` for an answer with `status` (ok iff
      200-299) and a body that parses to `body` (`None` if it does not). */
  function Respond(status: int, body: Option<Value>): (r: Reply)
    ensures 200 <= status <= 299 ==> (r == if body.Some? then Data(body.value) else ParseErrorThrown)
    ensures !(200 <= status <= 299) ==> r == ErrorMessage(status, ErrorData(status, body))
  {
    if 200 <= status <= 299 then
      if body.Some? then Data(body.value) else ParseErrorThrown
    else ErrorMessage(status, ErrorData(status, body))
  }

  /** A failed answer whose body does not parse always throws
      'HTTP Error: <status>'; a failed answer never yields data. */
  lemma FailedAnswers(status: int, body: Option<Value>)
    requires !(200 <= status <= 299)
    ensures body.None? ==> Respond(status, body) == Thrown(Str("HTTP Error: " + IntToString(status)))
    ensures !Respond(status, body).Data?
  {
  }

  /** The fields every registration body carries, in order. */
  const CommonKeys: seq<string> := ["email", "password", "password2", "full_name", "role"]
  /** The fields added for the role 'patient'. */
  const PatientKeys: seq<string> := ["age", "gender", "contact_number", "medical_history"]
  /** The fields added for any other role. */
  const DoctorKeys: seq<string> := ["specializations", "license_number", "years_of_experience", "contact_number"]

  /** `data.medical_history || ''`. */
  function HistoryOrEmpty(history: Value): (v: Value)
    ensures Truthy(history) ==> v == history
    ensures !Truthy(history) ==> v == Str("")
  {
    if Truthy(history) then history else Str("")
  }

  /** `Array.isArray(s) ? s : [s]`. */
  function AsList(specializations: Value): (v: Value)
    ensures v.Arr?
    ensures IsArray(specializations) ==> v == specializations
    ensures !IsArray(specializations) ==> v.items == [specializations]
  {
    if IsArray(specializations) then specializations else Arr([specializations])
  }

  /** `authAPI.register`'s body: the five common fields, then the patient
      fields when the role is 'patient' and the doctor fields otherwise;
      each field carries the input's value of the same name, except the
      defaulted medical history and the listed specializations. */
  function RegisterPayload(data: seq<(string, Value)>): (r: seq<(string, Value)>)
    ensures |r| == 9
    ensures forall i :: 0 <= i < 5 ==> r[i] == (CommonKeys[i], Get(data, CommonKeys[i]))
    ensures Get(data, "role") == Str("patient") ==>
              (forall i :: 5 <= i < 8 ==> r[i] == (PatientKeys[i - 5], Get(data, PatientKeys[i - 5])))
              && r[8] == ("medical_history", HistoryOrEmpty(Get(data, "medical_history")))
    ensures Get(data, "role") != Str("patient") ==>
              r[5] == ("specializations", AsList(Get(data, "specializations")))
              && (forall i :: 6 <= i < 9 ==> r[i] == (DoctorKeys[i - 5], Get(data, DoctorKeys[i - 5])))
  {
    var common := seq(5, i requires 0 <= i < 5 => (CommonKeys[i], Get(data, CommonKeys[i])));
    if Get(data, "role") == Str("patient") then
      common + seq(3, i requires 0 <= i < 3 => (PatientKeys[i], Get(data, PatientKeys[i])))
             + [("medical_history", HistoryOrEmpty(Get(data, "medical_history")))]
    else
      common + [("specializations", AsList(Get(data, "specializations")))]
             + seq(3, i requires 0 <= i < 3 => (DoctorKeys[i + 1], Get(data, DoctorKeys[i + 1])))
  }

  /** Whatever the input, the body names the same nine fields for a role:
      a doctor's `specializations` always goes out as a list and a
      patient's medical history is never missing. */
  lemma RegisterPayloadShapes(data: seq<(string, Value)>)
    ensures Keys(RegisterPayload(data)) ==
              CommonKeys + if Get(data, "role") == Str("patient") then PatientKeys else DoctorKeys
    ensures Get(data, "role") != Str("patient") ==> RegisterPayload(data)[5].1.Arr?
    ensures Get(data, "role") == Str("patient") ==> RegisterPayload(data)[8].1.Str? || Truthy(RegisterPayload(data)[8].1)
  {
    var r := RegisterPayload(data);
    var extra := if Get(data, "role") == Str("patient") then PatientKeys else DoctorKeys;
    assert forall i :: 0 <= i < 9 ==> Keys(r)[i] == (CommonKeys + extra)[i];
  }
}
