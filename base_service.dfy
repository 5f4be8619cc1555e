/**
 * services/base.service.ts: where every service sends its requests, how it builds
 * request URLs, and which message a failed request is reported with.
 */
module BaseService {
  import opened Wrappers
  import Seqs
  import Text
  import Numbers

  /** The API root every service uses. */
  const BasePath: string := "https://my-home-production.up.railway.app/api/v1"

  /** The endpoint a service has before its own constructor replaces it. */
  const DefaultResourceEndpoint: string := "/resources"

  /** A value of the query record: `String(value)` is what gets appended. */
  datatype QueryValue = Undefined | Null | QString(s: string) | QNumber(n: real) | QBool(b: bool)

  /** `String(value)`. */
  function StringOf(v: QueryValue): string {
    match v
    case Undefined => "undefined"
    case Null => "null"
    case QString(s) => s
    case QNumber(n) => Numbers.NumberText(n)
    case QBool(b) => if b then "true" else "false"
  }

  /** `value !== undefined && value !== null`. */
  predicate Present(e: (string, QueryValue)) {
    !e.1.Undefined? && !e.1.Null?
  }

  /** The search parameter an entry becomes. */
  function Param(e: (string, QueryValue)): (string, string) {
    (e.0, StringOf(e.1))
  }

  /** The search parameters of a query: the present entries, in order, as (key, text) pairs. */
  function QueryParams(query: seq<(string, QueryValue)>): seq<(string, string)> {
    Seqs.Map(Param, Seqs.Keep(query, Present))
  }

  /** A URL before serialisation: the joined location and the search parameters appended to it. */
  datatype Url = Url(location: string, searchParams: seq<(string, string)>)

  /** `s.replace(/\/+$/, "")`: every '/' at the end removed, nothing else. */
  function StripTrailingSlashes(s: string): (r: string)
    ensures |r| <= |s| && r == s[..|r|]
    ensures r == [] || r[|r| - 1] != '/'
    ensures forall i :: |r| <= i < |s| ==> s[i] == '/'
  {
    if s != [] && s[|s| - 1] == '/' then StripTrailingSlashes(s[..|s| - 1]) else s
  }

  /** `s.replace(/^\/+/, "")`: every '/' at the start removed, nothing else. */
  function StripLeadingSlashes(s: string): (r: string)
    ensures |r| <= |s| && r == s[|s| - |r|..]
    ensures r == [] || r[0] != '/'
    ensures forall i :: 0 <= i < |s| - |r| ==> s[i] == '/'
  {
    if s != [] && s[0] == '/' then StripLeadingSlashes(s[1..]) else s
  }

  /** `${cleanBase}/${cleanPath}`. */
  function JoinPath(base: string, path: string): string {
    StripTrailingSlashes(base) + "/" + StripLeadingSlashes(path)
  }

  /** The join puts exactly one '/' between the base and the path, whatever slashes they had. */
  lemma JoinOneSlash(base: string, path: string)
    ensures var b, p := StripTrailingSlashes(base), StripLeadingSlashes(path);
            var u := JoinPath(base, path);
            && |u| == |b| + 1 + |p|
            && u[..|b|] == b && u[|b|] == '/' && u[|b| + 1..] == p
            && (|b| == 0 || u[|b| - 1] != '/')
            && (|p| == 0 || u[|b| + 1] != '/')
  {
    var b, p := StripTrailingSlashes(base), StripLeadingSlashes(path);
    var u := JoinPath(base, path);
    assert u == b + "/" + p;
    assert u[..|b|] == b;
    assert u[|b| + 1..] == p;
  }

  /** Appending one more entry appends its parameter exactly when it is present. */
  lemma QueryParamsSnoc(q: seq<(string, QueryValue)>, e: (string, QueryValue))
    ensures QueryParams(q + [e]) == QueryParams(q) + (if Present(e) then [Param(e)] else [])
  {
    Seqs.KeepAppend(q, [e], Present);
    assert Seqs.Keep([e], Present) == (if Present(e) then [e] else []) + Seqs.Keep([], Present);
    Seqs.MapAppend(Param, Seqs.Keep(q, Present), Seqs.Keep([e], Present));
  }

  /** A query whose every value is present sends every entry, in order. */
  lemma AllPresentAllSent(q: seq<(string, QueryValue)>)
    requires forall i :: 0 <= i < |q| ==> Present(q[i])
    ensures QueryParams(q) == Seqs.Map(Param, q)
  {
    Seqs.KeepAll(q, Present);
  }

  /** A key is sent with a text exactly when the query has a present entry that renders to it. */
  lemma QueryParamsMember(q: seq<(string, QueryValue)>, e: (string, QueryValue))
    ensures e in q && Present(e) ==> Param(e) in QueryParams(q)
    ensures e.1.Undefined? || e.1.Null? ==> e !in Seqs.Keep(q, Present)
  {
    Seqs.KeepMember(q, Present, e);
    var kept := Seqs.Keep(q, Present);
    if e in kept {
      var i :| 0 <= i < |kept| && kept[i] == e;
      assert QueryParams(q)[i] == Param(e);
    }
  }

  /** `BaseService`: a service's API root and its resource endpoint. */
  class Service {
    var basePath: string
    var resourceEndpoint: string

    /** The base constructor followed by a subclass that sets its own endpoint. */
    constructor (endpoint: string)
      ensures basePath == BasePath && resourceEndpoint == endpoint
    {
      basePath := BasePath;
      resourceEndpoint := endpoint;
    }

    /** `resourcePath()`: the API root followed by the endpoint. */
    function ResourcePath(): (r: string)
      reads this
      ensures Text.StartsWith(r, basePath) && r[|basePath|..] == resourceEndpoint
    {
      basePath + resourceEndpoint
    }

    /** `buildUrl(path, query)`: the joined location, and each present query entry appended in order. */
    method BuildUrl(path: string, query: Option<seq<(string, QueryValue)>>) returns (url: Url)
      ensures url.location == JoinPath(basePath, path)
      ensures query.None? ==> url.searchParams == []
      ensures query.Some? ==> url.searchParams == QueryParams(query.value)
    {
      var params: seq<(string, string)> := [];
      if query.Some? {
        params := AppendParams(query.value);
      }
      url := Url(JoinPath(basePath, path), params);
    }
  }

  /** The `Object.entries(query).forEach` loop of `buildUrl`: append each present entry. */
  method AppendParams(q: seq<(string, QueryValue)>) returns (params: seq<(string, string)>)
    ensures params == QueryParams(q)
  {
    params := [];
    var i := 0;
    while i < |q|
      invariant 0 <= i <= |q|
      invariant params == QueryParams(q[..i])
    {
      var e := q[i];
      QueryParamsSnoc(q[..i], e);
      assert q[..i + 1] == q[..i] + [e];
      if Present(e) {
        params := params + [Param(e)];
      }
      i := i + 1;
    }
    assert q[..|q|] == q;
  }

  // ---------------- error-message selection ----------------

  /** A parsed JSON body. */
  datatype Json = JNull | JBool(b: bool) | JNumber(n: real) | JString(s: string)
                | JArray(items: seq<Json>) | JObject(fields: map<string, Json>)

  /** `String(v)` for a JSON value: arrays are joined with ',' and show null elements as "". */
  function JsonText(v: Json): string {
    match v
    case JNull => "null"
    case JBool(b) => if b then "true" else "false"
    case JNumber(n) => Numbers.NumberText(n)
    case JString(s) => s
    case JArray(items) => ItemsText(items)
    case JObject(_) => "[object Object]"
  }

  /** `items.join(",")`. */
  function ItemsText(items: seq<Json>): string
    decreases items
  {
    if items == [] then ""
    else
      var head := if items[0].JNull? then "" else JsonText(items[0]);
      if |items| == 1 then head else head + "," + ItemsText(items[1..])
  }

  /** The message used when the body gives none. */
  function FallbackMessage(status: nat): string {
    "Error en la solicitud (" + Numbers.NatToString(status) + ")"
  }

  /** `typeof data === "object" && data !== null && "message" in data`. */
  predicate HasMessage(data: Json) {
    data.JObject? && "message" in data.fields
  }

  /** What `request` does with a response: return its body, or throw the selected message. */
  datatype Outcome = Resolved(data: Json) | Thrown(message: string)

  /** The outcome of `request` for a response with this status and (already parsed) body. */
  function RequestOutcome(ok: bool, status: nat, data: Json): (r: Outcome)
    ensures ok <==> r.Resolved?
    ensures r.Resolved? ==> r.data == data
    ensures r.Thrown? && HasMessage(data) ==> r.message == JsonText(data.fields["message"])
    ensures r.Thrown? && !HasMessage(data) ==> r.message == FallbackMessage(status)
  {
    if ok then Resolved(data)
    else if HasMessage(data) then Thrown(JsonText(data.fields["message"]))
    else Thrown(FallbackMessage(status))
  }

  /** A failed request whose body carries a string message throws exactly that text. */
  lemma StringMessageVerbatim(status: nat, fields: map<string, Json>, s: string)
    requires "message" in fields && fields["message"] == JString(s)
    ensures RequestOutcome(false, status, JObject(fields)) == Thrown(s)
  {
  }

  /** The fallback message names the status: the digits between its parentheses read back as the status. */
  lemma FallbackNamesStatus(status: nat)
    ensures var m := FallbackMessage(status);
            var prefix := "Error en la solicitud (";
            && |m| == |prefix| + |Numbers.NatToString(status)| + 1
            && m[|m| - 1] == ')'
            && Numbers.ParseInt(m[|prefix|..|m| - 1]) == Some(status)
  {
    var m := FallbackMessage(status);
    var prefix := "Error en la solicitud (";
    var d := Numbers.NatToString(status);
    assert m == prefix + d + ")";
    assert m[|prefix|..|m| - 1] == d;
    Numbers.ParseIntNatToString(status);
  }
}
