/** The three HTTP handlers of the cloud-functions app: `gtg` (health check),
    `candidates` (list every candidate) and `candidate` (read or create one
    candidate named by the request path). The document store is the
    `Collection` of module DocumentStore; the hostname command's output is an
    input. */
module Handlers {
  import opened Envelope
  import opened DocumentStore

  // ---------------------------------------------------------------- gtg

  /** Python's `str.isspace` set, which `str.strip()` removes. */
  predicate IsSpace(c: char)
  {
    var n := c as int;
    (9 <= n <= 13) || (28 <= n <= 32) || n == 0x85 || n == 0xA0 || n == 0x1680
    || (0x2000 <= n <= 0x200A) || n == 0x2028 || n == 0x2029 || n == 0x202F
    || n == 0x205F || n == 0x3000
  }

  /** `s` without its leading whitespace. */
  function TrimStart(s: string): (r: string)
    ensures |r| <= |s| && r == s[|s| - |r|..]
    ensures r == [] || !IsSpace(r[0])
    ensures forall i :: 0 <= i < |s| - |r| ==> IsSpace(s[i])
  {
    if s != [] && IsSpace(s[0]) then TrimStart(s[1..]) else s
  }

  /** `s` without its trailing whitespace. */
  function TrimEnd(s: string): (r: string)
    ensures |r| <= |s| && r == s[..|r|]
    ensures r == [] || !IsSpace(r[|r| - 1])
    ensures forall i :: |r| <= i < |s| ==> IsSpace(s[i])
  {
    if s != [] && IsSpace(s[|s| - 1]) then TrimEnd(s[..|s| - 1]) else s
  }

  /** Python's `s.strip()`: the slice of `s` between its leading and trailing
      whitespace; what precedes and what follows the slice is whitespace. */
  function Strip(s: string): (r: string)
    ensures var k := |s| - |TrimStart(s)|;
      k + |r| <= |s| && forall j :: 0 <= j < |r| ==> r[j] == s[k + j]
    ensures forall i :: 0 <= i < |s| - |TrimStart(s)| ==> IsSpace(s[i])
    ensures var k := |s| - |TrimStart(s)|; forall i :: k + |r| <= i < |s| ==> IsSpace(s[i])
    ensures r == [] || (!IsSpace(r[0]) && !IsSpace(r[|r| - 1]))
  {
    TrimEnd(TrimStart(s))
  }

  /** Stripping leaves nothing exactly when the text is all whitespace. */
  lemma StripEmptyIffAllSpace(s: string)
    ensures Strip(s) == [] <==> forall i :: 0 <= i < |s| ==> IsSpace(s[i])
  {
  }

  /** Python truthiness of `request.args.get("details")`: present and not
      the empty string. */
  predicate Truthy(details: Option<string>)
  {
    details.Some? && details.value != ""
  }

  /** `gtg`: the output of `hostname -I` is read first, whatever `details`
      says. `hostOutput` is what the popen/read call gives: the command's
      standard output (possibly empty, also when the command itself fails),
      or the message of an exception raised by popen or read, which is the
      500 of the catch-all. Otherwise 200, with the connectivity object when
      `details` is truthy and no body when not. */
  function Gtg(details: Option<string>, hostOutput: Reply<string>): (r: Response)
    ensures r.status == 200 <==> hostOutput.Ok?
    ensures hostOutput.Raised? ==> r == ErrorResponse(500, hostOutput.message)
    ensures hostOutput.Ok? ==> (r.body == NoBody <==> details.None? || details.value == "")
    ensures hostOutput.Ok? && details.Some? && details.value != "" ==>
      r.body.Object? && r.body.fields.Keys == {"connected", "hostname"}
      && r.body.fields["connected"] == "true"
      && r.body.fields["hostname"] == Strip(hostOutput.value)
  {
    match hostOutput
    case Raised(msg) => ErrorResponse(500, msg)
    case Ok(out) =>
      var hostname := Strip(out);
      if Truthy(details) then
        Response(200, Object(map["connected" := "true", "hostname" := hostname]))
      else
        Response(200, NoBody)
  }

  // --------------------------------------------------------- candidate

  /** The candidate name: the path without its first character (`path[1:]`),
      refused when that is empty or still holds a '/'. */
  function ParseName(path: string): (r: Option<string>)
    ensures r.Some? <==> |path| >= 2 && '/' !in path[1..]
    ensures r.Some? ==> path == [path[0]] + r.value
  {
    var name := if |path| == 0 then "" else path[1..];
    if name == "" || '/' in name then None else Some(name)
  }

  /** The record `candidate` writes for `name`. */
  function CandidateDoc(name: string): (d: Record)
    ensures d.Keys == {"CandidateName"} && d["CandidateName"] == name
  {
    map["CandidateName" := name]
  }

  /** What one request to `candidate` does: its response, the documents
      afterwards, and the store calls it makes. */
  datatype Exchange = Exchange(response: Response, docs: map<string, Record>, calls: seq<Call>)

  /** The reference definition of `candidate` on a store value. Its full
      promises are the lemmas of module HandlerProperties; the contract here
      summarises the shape of every exchange. */
  function CandidateExchange(s: Store, verb: string, path: string): (e: Exchange)
    ensures e.response.status in {200, 400, 404, 405, 500}
    ensures |e.calls| <= 1
    ensures e.calls != [] <==> ParseName(path).Some? && (verb == "GET" || verb == "POST")
    ensures e.docs != s.docs ==> verb == "POST" && ParseName(path).Some? && s.outage.None?
  {
    match ParseName(path)
    case None => Exchange(ErrorResponse(400, NameInvalid), s.docs, [])
    case Some(name) =>
      if verb == "GET" then
        var response :=
          match Fetch(s, name)
          case Raised(msg) => ErrorResponse(500, msg)
          case Ok(Some(record)) => Response(200, Object(record))
          case Ok(None) => ErrorResponse(404, NameNotFound);
        Exchange(response, s.docs, [Read(name)])
      else if verb == "POST" then
        var data := CandidateDoc(name);
        var response :=
          if s.outage.Some? then ErrorResponse(500, s.outage.value)
          else Response(200, Object(data));
        Exchange(response, Upsert(s, name, data), [Write(name, data)])
      else
        Exchange(ErrorResponse(405, MethodNotAllowed), s.docs, [])
  }

  /** `candidate` against the live collection. */
  method Candidate(c: Collection, verb: string, path: string) returns (r: Response)
    modifies c`docs, c`calls
    ensures var e := CandidateExchange(old(c.State()), verb, path);
      r == e.response && c.docs == e.docs && c.calls == old(c.calls) + e.calls
  {
    var parsed := ParseName(path);
    if parsed.None? {
      return ErrorResponse(400, NameInvalid);
    }
    var name := parsed.value;
    if verb == "GET" {
      var doc := c.Get(name);
      match doc {
        case Raised(msg) => r := ErrorResponse(500, msg);
        case Ok(Some(record)) => r := Response(200, Object(record));
        case Ok(None) => r := ErrorResponse(404, NameNotFound);
      }
      return;
    }
    if verb == "POST" {
      var data := CandidateDoc(name);
      var done := c.Set(name, data);
      if done.Raised? {
        return ErrorResponse(500, done.message);
      }
      return Response(200, Object(data));
    }
    return ErrorResponse(405, MethodNotAllowed);
  }

  // -------------------------------------------------------- candidates

  /** `candidates`: 405 for any verb but GET, without touching the store;
      on GET one array entry per stored document (in the store's order), or
      the 500 of the catch-all when the store raises. */
  method Candidates(c: Collection, verb: string) returns (r: Response)
    modifies c`calls
    ensures verb != "GET" ==> r == ErrorResponse(405, MethodNotAllowed) && c.calls == old(c.calls)
    ensures verb == "GET" ==> c.calls == old(c.calls) + [Scan]
    ensures verb == "GET" && c.outage.Some? ==> r == ErrorResponse(500, c.outage.value)
    ensures verb == "GET" && c.outage.None? ==>
      r.status == 200 && r.body.Array? && |r.body.items| == |c.docs|
      && multiset(r.body.items) == RecordBag(c.docs)
  {
    if verb != "GET" {
      return ErrorResponse(405, MethodNotAllowed);
    }
    var docs := c.Stream();
    if docs.Raised? {
      return ErrorResponse(500, docs.message);
    }
    var namesArray: seq<Record> := [];
    for i := 0 to |docs.value|
      invariant namesArray == docs.value[..i]
    {
      namesArray := namesArray + [docs.value[i]];
    }
    assert namesArray == docs.value;
    RecordBagSize(c.docs);
    r := Response(200, Array(namesArray));
  }
}
