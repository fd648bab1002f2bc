/**
 * The browser client: the class-name joiner, the listing request's query string, and the
 * request helper that unwraps the API's envelope. Numbers are integers here.
 */
module ClientService {
  import opened Wrappers
  import opened Text
  import Envelope

  // ---------------------------------------------------------------------------
  // cn
  // ---------------------------------------------------------------------------

  /** An argument of `cn`: a string, `undefined`, `null` or `false`. */
  datatype ClassValue = Str(s: string) | Undefined | Null | False

  /** JavaScript truthiness of an argument: a non-empty string. */
  predicate Truthy(v: ClassValue)
  {
    v.Str? && v.s != ""
  }

  /** `filter(Boolean)`: the truthy strings, in order. */
  function Kept(classes: seq<ClassValue>): (r: seq<string>)
    ensures |r| <= |classes|
    ensures forall i :: 0 <= i < |r| ==> r[i] != ""
  {
    if classes == [] then []
    else
      (if Truthy(classes[0]) then [classes[0].s] else []) + Kept(classes[1..])
  }

  /** The kept strings are exactly the non-empty strings among the arguments. */
  lemma {:induction false} KeptMembers(classes: seq<ClassValue>)
    ensures forall s :: s in Kept(classes) <==> Str(s) in classes && s != ""
  {
    if classes != [] {
      KeptMembers(classes[1..]);
      assert forall v :: v in classes <==> v == classes[0] || v in classes[1..];
    }
  }

  /** `join(sep)`: the first part leads, and a single part is returned as it is. */
  function Join(parts: seq<string>, sep: string): (r: string)
    ensures parts == [] ==> r == ""
    ensures parts != [] ==> |parts[0]| <= |r| && r[..|parts[0]|] == parts[0]
    ensures |parts| == 1 ==> r == parts[0]
  {
    if parts == [] then "" else if |parts| == 1 then parts[0] else parts[0] + sep + Join(parts[1..], sep)
  }

  /** `cn(...classes)`: empty exactly when nothing is kept, otherwise led by the first kept class. */
  function Cn(classes: seq<ClassValue>): (r: string)
    ensures r == "" <==> Kept(classes) == []
    ensures Kept(classes) != [] ==> |Kept(classes)[0]| <= |r| && r[..|Kept(classes)[0]|] == Kept(classes)[0]
  {
    Join(Kept(classes), " ")
  }

  /** Filtering distributes over concatenation, so kept strings stay in their original order. */
  lemma {:induction false} KeptAppend(a: seq<ClassValue>, b: seq<ClassValue>)
    ensures Kept(a + b) == Kept(a) + Kept(b)
  {
    if a == [] {
      assert a + b == b;
    } else {
      assert (a + b)[0] == a[0];
      assert (a + b)[1..] == a[1..] + b;
      KeptAppend(a[1..], b);
    }
  }

  /** Joining two non-empty lists puts exactly one separator between them. */
  lemma {:induction false} JoinAppend(a: seq<string>, b: seq<string>, sep: string)
    requires a != [] && b != []
    ensures Join(a + b, sep) == Join(a, sep) + sep + Join(b, sep)
  {
    if |a| > 1 {
      assert (a + b)[1..] == a[1..] + b;
      JoinAppend(a[1..], b, sep);
    } else {
      assert (a + b)[1..] == b;
    }
  }

  /** `cn` of a concatenation: the two results joined by one space, dropping an empty side. */
  lemma CnAppend(a: seq<ClassValue>, b: seq<ClassValue>)
    ensures Cn(a + b) ==
      if Kept(a) == [] then Cn(b) else if Kept(b) == [] then Cn(a) else Cn(a) + " " + Cn(b)
  {
    KeptAppend(a, b);
    if Kept(a) != [] && Kept(b) != [] {
      JoinAppend(Kept(a), Kept(b), " ");
    } else if Kept(a) == [] {
      assert Kept(a) + Kept(b) == Kept(b);
    } else {
      assert Kept(a) + Kept(b) == Kept(a);
    }
  }

  /** With no truthy argument `cn` gives the empty string. */
  lemma {:induction false} CnOfFalsy(classes: seq<ClassValue>)
    requires forall i :: 0 <= i < |classes| ==> !Truthy(classes[i])
    ensures Kept(classes) == [] && Cn(classes) == ""
  {
    if classes != [] {
      CnOfFalsy(classes[1..]);
    }
  }

  /** With exactly one truthy argument `cn` gives it back unchanged. */
  lemma CnOfOne(before: seq<ClassValue>, s: string, after: seq<ClassValue>)
    requires s != ""
    requires forall i :: 0 <= i < |before| ==> !Truthy(before[i])
    requires forall i :: 0 <= i < |after| ==> !Truthy(after[i])
    ensures Cn(before + [Str(s)] + after) == s
  {
    CnOfFalsy(before);
    CnOfFalsy(after);
    CnAppend(before, [Str(s)]);
    assert Kept([Str(s)]) == [s] by {
      assert [Str(s)][1..] == [];
    }
    CnAppend(before + [Str(s)], after);
  }

  /** Two non-empty classes with falsy values around them: one space between, in order. */
  lemma CnExample()
    ensures Cn([Str("btn"), Undefined, Str(""), Null, False, Str("active")]) == "btn active"
  {
    var falsy := [Undefined, Str(""), Null, False];
    var btn, active := [Str("btn")], [Str("active")];
    CnOfFalsy(falsy);
    assert Kept(btn) == ["btn"] by { assert btn[1..] == []; }
    assert Kept(active) == ["active"] by { assert active[1..] == []; }
    KeptAppend(btn, falsy);
    KeptAppend(btn + falsy, active);
    assert btn + falsy + active == [Str("btn"), Undefined, Str(""), Null, False, Str("active")];
    assert Join(["btn", "active"], " ") == "btn active" by {
      assert ["btn", "active"][1..] == ["active"];
    }
  }

  // ---------------------------------------------------------------------------
  // The listing request's query string
  // ---------------------------------------------------------------------------

  const PROPERTIES_ENDPOINT: string := "/properties"

  /** The client's filter: every field optional. */
  datatype ClientFilter = ClientFilter(
    name: Option<string>,
    address: Option<string>,
    minPrice: Option<int>,
    maxPrice: Option<int>,
    page: Option<int>,
    pageSize: Option<int>)

  datatype Param = Param(key: string, value: string)

  /** Truthiness of an optional string field: present and non-empty. */
  predicate StringGiven(o: Option<string>)
  {
    o.Some? && o.value != ""
  }

  /** Truthiness of an optional number field: present and non-zero. */
  predicate NumberGiven(o: Option<int>)
  {
    o.Some? && o.value != 0
  }

  function StringParam(key: string, o: Option<string>): seq<Param>
  {
    if StringGiven(o) then [Param(key, o.value)] else []
  }

  function NumberParam(key: string, o: Option<int>): seq<Param>
  {
    if NumberGiven(o) then [Param(key, IntToDecimal(o.value))] else []
  }

  /** The parameters of the listing request, in their fixed order. */
  function QueryParams(filter: Option<ClientFilter>): (r: seq<Param>)
    ensures filter.None? ==> r == []
    ensures |r| <= |KEY_ORDER|
    ensures forall i :: 0 <= i < |r| ==> r[i].key in KEY_ORDER && r[i].value != ""
  {
    match filter
    case None => []
    case Some(f) =>
      StringParam("name", f.name) + StringParam("address", f.address) +
      NumberParam("minPrice", f.minPrice) + NumberParam("maxPrice", f.maxPrice) +
      NumberParam("page", f.page) + NumberParam("pageSize", f.pageSize)
  }

  /** The keys in the order they may appear. */
  const KEY_ORDER: seq<string> := ["name", "address", "minPrice", "maxPrice", "page", "pageSize"]

  /** `key=value` pairs joined by `&` (percent-encoding is not modelled). */
  function QueryString(params: seq<Param>): (q: string)
    ensures q == "" <==> params == []
  {
    if params == [] then ""
    else
      var head := params[0].key + "=" + params[0].value;
      if |params| == 1 then head else head + "&" + QueryString(params[1..])
  }

  /** The first value under `key`. */
  function Lookup(params: seq<Param>, key: string): Option<string>
  {
    if params == [] then None
    else if params[0].key == key then Some(params[0].value)
    else Lookup(params[1..], key)
  }

  lemma {:induction false} LookupAppend(a: seq<Param>, b: seq<Param>, key: string)
    ensures Lookup(a + b, key) == if Lookup(a, key).Some? then Lookup(a, key) else Lookup(b, key)
  {
    if a == [] {
      assert a + b == b;
    } else {
      assert (a + b)[0] == a[0];
      assert (a + b)[1..] == a[1..] + b;
      LookupAppend(a[1..], b, key);
    }
  }

  /**
   * Each parameter is sent exactly when its field is truthy, with the field's value: empty
   * strings and the number 0 are dropped.
   */
  lemma ParamsPresentIffTruthy(f: ClientFilter)
    ensures var ps := QueryParams(Some(f));
      Lookup(ps, "name") == (if StringGiven(f.name) then f.name else None) &&
      Lookup(ps, "address") == (if StringGiven(f.address) then f.address else None) &&
      Lookup(ps, "minPrice") == (if NumberGiven(f.minPrice) then Some(IntToDecimal(f.minPrice.value)) else None) &&
      Lookup(ps, "maxPrice") == (if NumberGiven(f.maxPrice) then Some(IntToDecimal(f.maxPrice.value)) else None) &&
      Lookup(ps, "page") == (if NumberGiven(f.page) then Some(IntToDecimal(f.page.value)) else None) &&
      Lookup(ps, "pageSize") == (if NumberGiven(f.pageSize) then Some(IntToDecimal(f.pageSize.value)) else None)
  {
    QueryLookup(f, "name");
    QueryLookup(f, "address");
    QueryLookup(f, "minPrice");
    QueryLookup(f, "maxPrice");
    QueryLookup(f, "page");
    QueryLookup(f, "pageSize");
  }

  /** A key's value is looked up field by field, in the fixed order. */
  lemma QueryLookup(f: ClientFilter, key: string)
    ensures Lookup(QueryParams(Some(f)), key) ==
      if key == "name" && StringGiven(f.name) then f.name
      else if key == "address" && StringGiven(f.address) then f.address
      else if key == "minPrice" && NumberGiven(f.minPrice) then Some(IntToDecimal(f.minPrice.value))
      else if key == "maxPrice" && NumberGiven(f.maxPrice) then Some(IntToDecimal(f.maxPrice.value))
      else if key == "page" && NumberGiven(f.page) then Some(IntToDecimal(f.page.value))
      else if key == "pageSize" && NumberGiven(f.pageSize) then Some(IntToDecimal(f.pageSize.value))
      else None
  {
    var p1, p2, p3 := StringParam("name", f.name), StringParam("address", f.address), NumberParam("minPrice", f.minPrice);
    var p4, p5, p6 := NumberParam("maxPrice", f.maxPrice), NumberParam("page", f.page), NumberParam("pageSize", f.pageSize);
    LookupAppend(p1 + p2 + p3 + p4 + p5, p6, key);
    LookupAppend(p1 + p2 + p3 + p4, p5, key);
    LookupAppend(p1 + p2 + p3, p4, key);
    LookupAppend(p1 + p2, p3, key);
    LookupAppend(p1, p2, key);
    StringParamLookup("name", f.name, key);
    StringParamLookup("address", f.address, key);
    NumberParamLookup("minPrice", f.minPrice, key);
    NumberParamLookup("maxPrice", f.maxPrice, key);
    NumberParamLookup("page", f.page, key);
    NumberParamLookup("pageSize", f.pageSize, key);
  }

  lemma StringParamLookup(k: string, o: Option<string>, key: string)
    ensures Lookup(StringParam(k, o), key) == if k == key && StringGiven(o) then o else None
  {
    if StringGiven(o) { assert StringParam(k, o)[1..] == []; }
  }

  lemma NumberParamLookup(k: string, o: Option<int>, key: string)
    ensures Lookup(NumberParam(k, o), key) == if k == key && NumberGiven(o) then Some(IntToDecimal(o.value)) else None
  {
    if NumberGiven(o) { assert NumberParam(k, o)[1..] == []; }
  }

  /** The position of a key in the fixed order. */
  function Rank(key: string): nat
  {
    if key == "name" then 0 else if key == "address" then 1 else if key == "minPrice" then 2
    else if key == "maxPrice" then 3 else if key == "page" then 4 else 5
  }

  /** Keys strictly increase in the fixed order. */
  predicate Ordered(ps: seq<Param>)
  {
    forall i, j :: 0 <= i < j < |ps| ==> Rank(ps[i].key) < Rank(ps[j].key)
  }

  /** Appending at most one parameter of rank `r` after parameters of lower rank keeps the order. */
  lemma OrderedSnoc(a: seq<Param>, part: seq<Param>, r: nat)
    requires Ordered(a) && |part| <= 1
    requires forall x :: x in part ==> Rank(x.key) == r
    requires forall x :: x in a ==> Rank(x.key) < r
    ensures Ordered(a + part)
    ensures forall x :: x in a + part ==> Rank(x.key) <= r
  {
    var c := a + part;
    forall i, j | 0 <= i < j < |c| ensures Rank(c[i].key) < Rank(c[j].key) {
      if j >= |a| { assert c[j] in part && c[i] in a; }
    }
  }

  /** The parameters appear in the fixed order name, address, minPrice, maxPrice, page, pageSize. */
  lemma ParamsInFixedOrder(filter: Option<ClientFilter>)
    ensures Ordered(QueryParams(filter))
  {
    if filter.Some? {
      var f := filter.value;
      var p1, p2, p3 := StringParam("name", f.name), StringParam("address", f.address), NumberParam("minPrice", f.minPrice);
      var p4, p5, p6 := NumberParam("maxPrice", f.maxPrice), NumberParam("page", f.page), NumberParam("pageSize", f.pageSize);
      OrderedSnoc([], p1, 0);
      OrderedSnoc(p1, p2, 1);
      OrderedSnoc(p1 + p2, p3, 2);
      OrderedSnoc(p1 + p2 + p3, p4, 3);
      OrderedSnoc(p1 + p2 + p3 + p4, p5, 4);
      OrderedSnoc(p1 + p2 + p3 + p4 + p5, p6, 5);
      assert [] + p1 == p1;
    }
  }

  /** A filter of zeros and empty strings sends no parameters. */
  lemma FalsyFilterSendsNothing()
    ensures QueryParams(Some(ClientFilter(Some(""), None, Some(0), Some(0), Some(0), None))) == []
  {
  }

  /** The endpoint of the listing request, built the way the client appends parameters one by one. */
  method BuildEndpoint(filter: Option<ClientFilter>) returns (endpoint: string)
    ensures QueryParams(filter) == [] ==> endpoint == PROPERTIES_ENDPOINT
    ensures QueryParams(filter) != [] ==> endpoint == PROPERTIES_ENDPOINT + "?" + QueryString(QueryParams(filter))
  {
    var params: seq<Param> := [];
    if filter.Some? {
      var f := filter.value;
      ghost var p1, p2, p3 := StringParam("name", f.name), StringParam("address", f.address), NumberParam("minPrice", f.minPrice);
      ghost var p4, p5, p6 := NumberParam("maxPrice", f.maxPrice), NumberParam("page", f.page), NumberParam("pageSize", f.pageSize);
      if StringGiven(f.name) { params := params + [Param("name", f.name.value)]; }
      assert params == p1;
      if StringGiven(f.address) { params := params + [Param("address", f.address.value)]; }
      assert params == p1 + p2;
      if NumberGiven(f.minPrice) { params := params + [Param("minPrice", IntToDecimal(f.minPrice.value))]; }
      assert params == p1 + p2 + p3;
      if NumberGiven(f.maxPrice) { params := params + [Param("maxPrice", IntToDecimal(f.maxPrice.value))]; }
      assert params == p1 + p2 + p3 + p4;
      if NumberGiven(f.page) { params := params + [Param("page", IntToDecimal(f.page.value))]; }
      assert params == p1 + p2 + p3 + p4 + p5;
      if NumberGiven(f.pageSize) { params := params + [Param("pageSize", IntToDecimal(f.pageSize.value))]; }
      assert params == p1 + p2 + p3 + p4 + p5 + p6;
      assert params == QueryParams(filter);
    }
    var queryString := QueryString(params);
    endpoint := if queryString != "" then PROPERTIES_ENDPOINT + "?" + queryString else PROPERTIES_ENDPOINT;
  }

  // ---------------------------------------------------------------------------
  // The request helper
  // ---------------------------------------------------------------------------

  const RESPONSE_FALLBACK: string := "Error en la respuesta de la API"
  const CONNECTION_MESSAGE: string := "No se pudo conectar con el servidor. Verifica que la API esté ejecutándose."

  /** A thrown JavaScript error: its class and message. */
  datatype JsError = Error(message: string) | TypeError(message: string) | SyntaxError(message: string)

  /** The envelope as the client reads it: `data` may be null, `error` may be absent. */
  datatype ClientEnvelope<T> = ClientEnvelope(success: bool, data: Option<T>, message: string, error: Option<string>)

  /** What reading the body as JSON gives. */
  datatype Body<T> = Json(envelope: ClientEnvelope<T>) | Unreadable(err: JsError)

  /** What `fetch` gives: a rejection, or a response with its `ok` flag, status and body. */
  datatype FetchOutcome<T> = Rejected(err: JsError) | Responded(ok: bool, status: nat, body: Body<T>)

  function HttpErrorMessage(status: nat): string
  {
    "HTTP error! status: " + NatToDecimal(status)
  }

  /** `data.error || fallback`. */
  function EnvelopeErrorText(error: Option<string>): (m: string)
    ensures m != ""
    ensures error.Some? && error.value != "" ==> m == error.value
  {
    if error.Some? && error.value != "" then error.value else RESPONSE_FALLBACK
  }

  /** The catch block: a TypeError mentioning `fetch` becomes the connectivity error; others pass through. */
  function Translate(e: JsError): (r: JsError)
    ensures (e.TypeError? && Contains(e.message, "fetch")) ==> r == Error(CONNECTION_MESSAGE)
    ensures !(e.TypeError? && Contains(e.message, "fetch")) ==> r == e
  {
    if e.TypeError? && Contains(e.message, "fetch") then Error(CONNECTION_MESSAGE) else e
  }

  /** What the request helper does before its catch block. */
  function Unwrap<T>(fetch: FetchOutcome<T>): (r: Result<Option<T>, JsError>)
    ensures r.Success? <==> fetch.Responded? && fetch.ok && fetch.body.Json? && fetch.body.envelope.success
    ensures r.Success? ==> r.value == fetch.body.envelope.data
    ensures fetch.Rejected? ==> r == Failure(fetch.err)
    ensures fetch.Responded? && !fetch.ok ==> r == Failure(Error(HttpErrorMessage(fetch.status)))
    ensures fetch.Responded? && fetch.ok && fetch.body.Unreadable? ==> r == Failure(fetch.body.err)
  {
    match fetch
    case Rejected(e) => Failure(e)
    case Responded(ok, status, body) =>
      if !ok then Failure(Error(HttpErrorMessage(status)))
      else match body
        case Unreadable(e) => Failure(e)
        case Json(env) =>
          if !env.success then Failure(Error(EnvelopeErrorText(env.error))) else Success(env.data)
  }

  /** `request<T>`: the envelope's data on success, else the selected error. */
  function Request<T>(fetch: FetchOutcome<T>): (r: Result<Option<T>, JsError>)
    ensures r.Success? <==> fetch.Responded? && fetch.ok && fetch.body.Json? && fetch.body.envelope.success
    ensures r.Success? ==> r.value == fetch.body.envelope.data
    ensures fetch.Responded? && !fetch.ok ==> r == Failure(Error(HttpErrorMessage(fetch.status)))
    ensures fetch.Responded? && fetch.ok && fetch.body.Json? && !fetch.body.envelope.success ==>
      r == Failure(Error(EnvelopeErrorText(fetch.body.envelope.error)))
    ensures fetch.Rejected? ==> r == Failure(Translate(fetch.err))
    ensures fetch.Responded? && fetch.ok && fetch.body.Unreadable? ==> r == Failure(Translate(fetch.body.err))
  {
    match Unwrap(fetch)
    case Success(v) => Success(v)
    case Failure(e) => Failure(Translate(e))
  }

  /** The HTTP error names the status, and its decimal digits give the status back. */
  lemma HttpErrorCarriesStatus(status: nat)
    ensures var m := HttpErrorMessage(status);
      |m| > 20 && m[..20] == "HTTP error! status: " && DecimalValue(m[20..]) == status
  {
    var m := HttpErrorMessage(status);
    assert m[20..] == NatToDecimal(status);
    DecimalRoundTrip(status);
  }

  /** An HTTP error status never reads as the connectivity error; a rejected fetch gives it only through a TypeError mentioning `fetch`. */
  lemma ConnectivityOnlyFromFetch<T>(fetch: FetchOutcome<T>)
    requires Request(fetch) == Failure(Error(CONNECTION_MESSAGE))
    ensures fetch.Rejected? ==>
      (fetch.err.TypeError? && Contains(fetch.err.message, "fetch")) || fetch.err == Error(CONNECTION_MESSAGE)
    ensures fetch.Responded? ==> fetch.ok
  {
    if fetch.Responded? && !fetch.ok {
      HttpErrorCarriesStatus(fetch.status);
    }
  }

  /** The envelope as it reaches the client, from the one the server built. */
  function Received<T>(e: Envelope.ApiResponse<T>): ClientEnvelope<T>
  {
    ClientEnvelope(e.success, e.data, e.message, Some(e.error))
  }

  /**
   * End to end: a server success envelope yields its data; a server error envelope raises
   * its error text, or the fallback when the server left the error empty.
   */
  lemma ServerEnvelopeSeenByClient<T>(data: T, error: string, message: string)
    ensures Request(Responded(true, 200, Json(Received(Envelope.SuccessResult(data, message))))) == Success(Some(data))
    ensures error != "" ==>
      Request<T>(Responded(true, 200, Json(Received(Envelope.ErrorResult(error, message))))) == Failure(Error(error))
    ensures Request<T>(Responded(true, 200, Json(Received(Envelope.ErrorResult("", message))))) == Failure(Error(RESPONSE_FALLBACK))
  {
  }
}
