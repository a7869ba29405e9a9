/** Response formatting of src/utils/response.ts. The JSON body is kept as a
    structured value: `body` is what `JSON.parse(JSON.stringify(...))` of the
    object literal gives back, not the text. */
module Response {
  import opened Common
  import opened Errors

  /** A JavaScript value as far as these helpers look at it. Numbers are
      integers and NaN; other floating-point numbers are not modelled. An
      Error instance carries the `name` and `message` it reads (through its
      prototype chain if need be) and its own enumerable properties, in key
      order. */
  datatype Json =
    | JUndefined
    | JNull
    | JBool(b: bool)
    | JNum(n: int)
    | JNaN
    | JStr(s: string)
    | JArr(items: seq<Json>)
    | JObj(members: seq<Member>)
    | JError(name: string, message: string, own: seq<Member>)

  datatype Member = Member(key: string, value: Json)

  /** JavaScript truthiness, as `if (data)` and `x || y` test it. */
  predicate Truthy(j: Json) {
    match j
    case JUndefined => false
    case JNull => false
    case JBool(b) => b
    case JNum(n) => n != 0
    case JNaN => false
    case JStr(s) => s != ""
    case JArr(_) => true
    case JObj(_) => true
    case JError(_, _, _) => true
  }

  /** A value that JSON can carry: no undefined, no NaN and no Error
      instance anywhere inside. */
  predicate IsJsonValue(j: Json)
    decreases j
  {
    match j
    case JUndefined => false
    case JNaN => false
    case JError(_, _, _) => false
    case JArr(items) => forall i :: 0 <= i < |items| ==> IsJsonValue(items[i])
    case JObj(ms) => forall i :: 0 <= i < |ms| ==> IsJsonValue(ms[i].value)
    case _ => true
  }

  /** `JSON.parse(JSON.stringify(j))` for a value that is not itself undefined:
      members whose value is undefined are dropped, undefined array elements
      and NaN become null, and an Error becomes the plain object of its own
      enumerable properties. */
  function Serialize(j: Json): (r: Json)
    decreases j, 1
  {
    match j
    case JUndefined => JNull
    case JNaN => JNull
    case JArr(items) => JArr(SerializeItems(items))
    case JObj(ms) => JObj(SerializeMembers(ms))
    case JError(_, _, own) => JObj(SerializeMembers(own))
    case _ => j
  }

  function SerializeItems(items: seq<Json>): (r: seq<Json>)
    ensures |r| == |items|
    decreases items, 0
  {
    if items == [] then [] else [Serialize(items[0])] + SerializeItems(items[1..])
  }

  function SerializeMembers(ms: seq<Member>): (r: seq<Member>)
    decreases ms, 0
  {
    if ms == [] then []
    else if ms[0].value == JUndefined then SerializeMembers(ms[1..])
    else [Member(ms[0].key, Serialize(ms[0].value))] + SerializeMembers(ms[1..])
  }

  /** Whatever goes in, JSON can carry what comes back. */
  lemma {:induction false} SerializeGivesJsonValue(j: Json)
    ensures IsJsonValue(Serialize(j))
    decreases j, 1
  {
    match j
    case JArr(items) => ItemsGiveJsonValues(items);
    case JObj(ms) => MembersGiveJsonValues(ms);
    case JError(_, _, own) => MembersGiveJsonValues(own);
    case _ =>
  }

  lemma {:induction false} ItemsGiveJsonValues(items: seq<Json>)
    ensures forall i :: 0 <= i < |items| ==> IsJsonValue(SerializeItems(items)[i])
    decreases items, 0
  {
    if items != [] {
      SerializeGivesJsonValue(items[0]);
      ItemsGiveJsonValues(items[1..]);
      assert forall i :: 1 <= i < |items| ==> SerializeItems(items)[i] == SerializeItems(items[1..])[i - 1];
    }
  }

  lemma {:induction false} MembersGiveJsonValues(ms: seq<Member>)
    ensures forall i :: 0 <= i < |SerializeMembers(ms)| ==> IsJsonValue(SerializeMembers(ms)[i].value)
    decreases ms, 0
  {
    if ms != [] {
      MembersGiveJsonValues(ms[1..]);
      var rest := SerializeMembers(ms[1..]);
      if ms[0].value != JUndefined {
        SerializeGivesJsonValue(ms[0].value);
        var r := SerializeMembers(ms);
        assert r == [Member(ms[0].key, Serialize(ms[0].value))] + rest;
        forall i | 0 <= i < |r| ensures IsJsonValue(r[i].value) {
          if i > 0 { assert r[i] == rest[i - 1]; }
        }
      } else {
        assert SerializeMembers(ms) == rest;
      }
    }
  }

  /** On a value JSON can already carry, the round trip through text is the
      identity; hence serializing twice is serializing once. */
  lemma {:induction false} SerializeKeepsJsonValue(j: Json)
    requires IsJsonValue(j)
    ensures Serialize(j) == j
    decreases j, 1
  {
    match j
    case JArr(items) => ItemsKeepJsonValues(items);
    case JObj(ms) => MembersKeepJsonValues(ms);
    case _ =>
  }

  lemma {:induction false} ItemsKeepJsonValues(items: seq<Json>)
    requires forall i :: 0 <= i < |items| ==> IsJsonValue(items[i])
    ensures SerializeItems(items) == items
    decreases items, 0
  {
    if items != [] {
      SerializeKeepsJsonValue(items[0]);
      ItemsKeepJsonValues(items[1..]);
      assert [items[0]] + items[1..] == items;
    }
  }

  lemma {:induction false} MembersKeepJsonValues(ms: seq<Member>)
    requires forall i :: 0 <= i < |ms| ==> IsJsonValue(ms[i].value)
    ensures SerializeMembers(ms) == ms
    decreases ms, 0
  {
    if ms != [] {
      SerializeKeepsJsonValue(ms[0].value);
      MembersKeepJsonValues(ms[1..]);
      assert [ms[0]] + ms[1..] == ms;
    }
  }

  lemma SerializeIdempotent(j: Json)
    ensures Serialize(Serialize(j)) == Serialize(j)
  {
    SerializeGivesJsonValue(j);
    SerializeKeepsJsonValue(Serialize(j));
  }

  /** The value stored under `key` in a serialized object body, if any. */
  function Field(body: Json, key: string): Option<Json> {
    match body
    case JObj(ms) => FieldIn(ms, key)
    case _ => None
  }

  function FieldIn(ms: seq<Member>, key: string): Option<Json> {
    if ms == [] then None
    else if ms[0].key == key then Some(ms[0].value)
    else FieldIn(ms[1..], key)
  }

  predicate HasOnlyKeys(body: Json, keys: set<string>) {
    body.JObj? && forall i :: 0 <= i < |body.members| ==> body.members[i].key in keys
  }

  /** The `{statusCode, body}` value the helpers return. */
  datatype HttpResponse = HttpResponse(statusCode: int, body: Json)

  /** formatResponse: the body carries `message` and, when `data` is truthy,
      `data` as well; the status code passes through. */
  function FormatResponse(statusCode: int, message: Json, data: Json): (r: HttpResponse)
    ensures r.statusCode == statusCode
    ensures HasOnlyKeys(r.body, {"message", "data"})
    ensures message != JUndefined ==> Field(r.body, "message") == Some(Serialize(message))
    ensures message == JUndefined ==> Field(r.body, "message") == None
    ensures Truthy(data) ==> Field(r.body, "data") == Some(Serialize(data))
    ensures !Truthy(data) ==> Field(r.body, "data") == None
  {
    var ms := [Member("message", message)] + if Truthy(data) then [Member("data", data)] else [];
    SerializedBody(message, data);
    FieldsOfBody(message, data);
    HttpResponse(statusCode, Serialize(JObj(ms)))
  }

  lemma FieldsOfBody(message: Json, data: Json)
    ensures var body := JObj((if message == JUndefined then [] else [Member("message", Serialize(message))])
                             + (if Truthy(data) then [Member("data", Serialize(data))] else []));
      && HasOnlyKeys(body, {"message", "data"})
      && Field(body, "message") == (if message == JUndefined then None else Some(Serialize(message)))
      && Field(body, "data") == (if Truthy(data) then Some(Serialize(data)) else None)
  {
    var m := Member("message", Serialize(message));
    var d := Member("data", Serialize(data));
    assert [m, d][1..] == [d];
    assert [m] + [d] == [m, d];
    assert [m][1..] == [];
    assert [d][1..] == [];
    if message == JUndefined {
      assert [] + [d] == [d];
      if Truthy(data) { assert FieldIn([d], "message") == FieldIn([], "message"); }
    } else if Truthy(data) {
      assert FieldIn([m, d], "data") == FieldIn([d], "data");
    } else {
      assert FieldIn([m], "data") == FieldIn([], "data");
    }
  }

  /** What `JSON.parse(JSON.stringify({message, data?}))` keeps of the two members. */
  lemma SerializedBody(message: Json, data: Json)
    ensures Serialize(JObj([Member("message", message)] + if Truthy(data) then [Member("data", data)] else []))
         == JObj((if message == JUndefined then [] else [Member("message", Serialize(message))])
                 + (if Truthy(data) then [Member("data", Serialize(data))] else []))
  {
    var tail := if Truthy(data) then [Member("data", data)] else [];
    var ms := [Member("message", message)] + tail;
    assert ms[1..] == tail;
    var head := if message == JUndefined then [] else [Member("message", Serialize(message))];
    assert SerializeMembers(ms) == head + SerializeMembers(tail);
    if Truthy(data) {
      assert tail[1..] == [];
      assert SerializeMembers(tail) == [Member("data", Serialize(data))] + SerializeMembers([]);
    }
  }

  /** SuccessResponse(data) is formatResponse(200, 'success', data). */
  function SuccessResponse(data: Json): (r: HttpResponse)
    ensures r == FormatResponse(200, JStr("success"), data)
    ensures r.statusCode == 200
    ensures Field(r.body, "message") == Some(JStr("success"))
  {
    FormatResponse(200, JStr("success"), data)
  }

  /** `${v}`: JavaScript's string conversion. Arrays join their elements'
      forms with commas (null and undefined elements give the empty string). */
  function StringForm(j: Json): string
    decreases j, 1
  {
    match j
    case JUndefined => "undefined"
    case JNull => "null"
    case JBool(b) => if b then "true" else "false"
    case JNum(n) => IntToString(n)
    case JNaN => "NaN"
    case JStr(s) => s
    case JArr(items) => JoinForms(items)
    case JObj(_) => "[object Object]"
    case JError(name, message, _) => ErrorText(name, message)
  }

  /** `Error.prototype.toString`: the name and the message joined by ": ",
      either alone when the other is empty. */
  function ErrorText(name: string, message: string): (t: string)
    ensures name == "" ==> t == message
    ensures name != "" && message == "" ==> t == name
    ensures name != "" && message != "" ==> t == name + ": " + message
  {
    if name == "" then message else if message == "" then name else name + ": " + message
  }

  function JoinForms(items: seq<Json>): string
    decreases items, 0
  {
    if items == [] then ""
    else
      var head := if items[0] == JNull || items[0] == JUndefined then "" else StringForm(items[0]);
      if |items| == 1 then head else head + "," + JoinForms(items[1..])
  }

  /** Reading `v.constraints`: a TypeError on null and undefined, undefined on
      any value without that property. */
  function ConstraintsOf(v: Json): Result<Json, string> {
    match v
    case JUndefined => Err("TypeError: Cannot read properties of undefined (reading 'constraints')")
    case JNull => Err("TypeError: Cannot read properties of null (reading 'constraints')")
    case JObj(ms) => Ok(FieldIn(ms, "constraints").GetOr(JUndefined))
    case JError(_, _, own) => Ok(FieldIn(own, "constraints").GetOr(JUndefined))
    case _ => Ok(JUndefined)
  }

  /** `o[Object.keys(o)[0]]`: a TypeError when `o` is null or undefined, the
      first own property's value otherwise, undefined when there is none. */
  function FirstOwnValue(o: Json): Result<Json, string> {
    match o
    case JUndefined => Err("TypeError: Cannot convert undefined or null to object")
    case JNull => Err("TypeError: Cannot convert undefined or null to object")
    case JObj(ms) => Ok(if ms == [] then JUndefined else ms[0].value)
    case JError(_, _, own) => Ok(if own == [] then JUndefined else own[0].value)
    case JArr(items) => Ok(if items == [] then JUndefined else items[0])
    case JStr(s) => Ok(if s == "" then JUndefined else JStr([s[0]]))
    case _ => Ok(JUndefined)
  }

  /** The message ErrorResponse derives from an array of validation errors. */
  function ValidationMessage(items: seq<Json>): Result<Json, string> {
    var first := if items == [] then JUndefined else items[0];
    match ConstraintsOf(first)
    case Err(e) => Err(e)
    case Ok(c) =>
      match FirstOwnValue(c)
      case Err(e) => Err(e)
      case Ok(v) => Ok(if Truthy(v) then v else JStr("Error occured"))
  }

  /** ErrorResponse(code = 1000, error). A TypeError thrown while reading the
      validation error is returned as Err. */
  function ErrorResponse(code: Option<int>, error: Json): (r: Result<HttpResponse, string>)
    ensures r.Ok? ==> r.value.statusCode == code.GetOr(1000)
    ensures !error.JArr? ==> r.Ok? && r.value == FormatResponse(code.GetOr(1000), JStr(StringForm(error)), error)
    ensures error == JArr([]) ==> r.Err?
    ensures error.JArr? && r.Ok? ==>
      && Field(r.value.body, "message").Some?
      && Field(r.value.body, "message") == Field(r.value.body, "data")
  {
    var c := code.GetOr(1000);
    match error
    case JArr(items) =>
      (match ValidationMessage(items)
       case Err(e) => Err(e)
       case Ok(m) => Ok(FormatResponse(c, m, m)))
    case _ => Ok(FormatResponse(c, JStr(StringForm(error)), error))
  }

  /** ErrorResponse on a list of validation errors: the first constraint's
      message, or 'Error occured' when it is missing or falsy, is both the
      message and the data of the body. */
  lemma ErrorResponseOnValidationErrors(code: Option<int>, items: seq<Json>, constraints: seq<Member>)
    requires |items| > 0 && items[0].JObj?
    requires FieldIn(items[0].members, "constraints") == Some(JObj(constraints))
    ensures var v := if constraints == [] then JUndefined else constraints[0].value;
            var m := if Truthy(v) then v else JStr("Error occured");
            && ErrorResponse(code, JArr(items)) == Ok(FormatResponse(code.GetOr(1000), m, m))
            && Field(ErrorResponse(code, JArr(items)).value.body, "message") == Some(Serialize(m))
            && Field(ErrorResponse(code, JArr(items)).value.body, "data") == Some(Serialize(m))
  {
  }

  /** A BaseError instance as a value: the constructor assigns `name`,
      `message` and `statusCode`, in that order, as own enumerable
      properties (the captured stack is not enumerable). */
  function ErrorValue(e: BaseError): (j: Json)
    ensures j.JError? && j.name == e.name && j.message == e.message
  {
    JError(e.name, e.message, [Member("name", JStr(e.name)), Member("message", JStr(e.message)),
                               Member("statusCode", JNum(e.statusCode))])
  }

  /** ErrorResponse on an APIError or AuthorizeError: the message is the
      error's `toString()`, "name: message", and the data is the plain object
      of its name, message and status code. */
  lemma ErrorResponseOnError(code: Option<int>, e: BaseError)
    ensures var r := ErrorResponse(code, ErrorValue(e));
      && r.Ok? && r.value.statusCode == code.GetOr(1000)
      && Field(r.value.body, "message") == Some(JStr(ErrorText(e.name, e.message)))
      && Field(r.value.body, "data")
           == Some(JObj([Member("name", JStr(e.name)), Member("message", JStr(e.message)),
                         Member("statusCode", JNum(e.statusCode))]))
  {
    var own := [Member("name", JStr(e.name)), Member("message", JStr(e.message)), Member("statusCode", JNum(e.statusCode))];
    assert IsJsonValue(JObj(own));
    SerializeKeepsJsonValue(JObj(own));
  }

  /** `ErrorResponse(500, new APIError('x'))` answers with the message
      "api internal server error: x". */
  lemma ErrorResponseOnAPIError(description: string)
    requires description != ""
    ensures var r := ErrorResponse(Some(500), ErrorValue(APIError(Some(description), None)));
      && r.Ok? && r.value.statusCode == 500
      && Field(r.value.body, "message") == Some(JStr("api internal server error: " + description))
  {
    var e := APIError(Some(description), None);
    ErrorResponseOnError(Some(500), e);
    assert ErrorText(e.name, e.message) == "api internal server error: " + description;
  }
}
