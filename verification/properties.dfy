/** What the `candidate` and `candidates` handlers promise, stated over the
    reference definition `CandidateExchange` and the listing's record bag. */
module HandlerProperties {
  import opened Envelope
  import opened DocumentStore
  import opened Handlers

  /** A 400 comes exactly from a bad name, whatever the verb; and then the
      store is neither read nor written. */
  lemma BadRequestExactlyOnInvalidName(s: Store, verb: string, path: string)
    ensures CandidateExchange(s, verb, path).response.status == 400 <==> ParseName(path).None?
    ensures ParseName(path).None? ==>
      CandidateExchange(s, verb, path) == Exchange(ErrorResponse(400, NameInvalid), s.docs, [])
  {
  }

  /** GET on a valid name reads that one document and changes nothing: 200
      with the stored record when it exists, 404 otherwise, 500 when the
      store raises. */
  lemma GetIsReadOnlyLookup(s: Store, path: string)
    requires ParseName(path).Some?
    ensures var name := path[1..]; var e := CandidateExchange(s, "GET", path);
      && e.docs == s.docs
      && e.calls == [Read(name)]
      && (s.outage.Some? ==> e.response == ErrorResponse(500, s.outage.value))
      && (s.outage.None? && name in s.docs ==> e.response == Response(200, Object(s.docs[name])))
      && (s.outage.None? && name !in s.docs ==> e.response == ErrorResponse(404, NameNotFound))
  {
  }

  /** POST on a valid name writes {CandidateName: name} under that name,
      overwriting what was there and leaving every other document alone,
      and answers with the same object. */
  lemma PostUpserts(s: Store, path: string)
    requires ParseName(path).Some?
    ensures var name := path[1..]; var e := CandidateExchange(s, "POST", path);
      && e.calls == [Write(name, CandidateDoc(name))]
      && (s.outage.None? ==>
            e.docs == s.docs[name := CandidateDoc(name)]
            && e.response == Response(200, Object(CandidateDoc(name))))
      && (s.outage.Some? ==>
            e.docs == s.docs && e.response == ErrorResponse(500, s.outage.value))
  {
  }

  /** Any verb but GET and POST on a valid name is 405, without a store
      call, even while the store is down. */
  lemma OtherVerbsNotAllowed(s: Store, verb: string, path: string)
    requires ParseName(path).Some? && verb != "GET" && verb != "POST"
    ensures CandidateExchange(s, verb, path) == Exchange(ErrorResponse(405, MethodNotAllowed), s.docs, [])
  {
  }

  /** Only POST changes the documents, and only the one it names. */
  lemma OnlyPostWrites(s: Store, verb: string, path: string)
    ensures verb != "POST" || ParseName(path).None? ==> CandidateExchange(s, verb, path).docs == s.docs
    ensures forall k :: ParseName(path).Some? && k != path[1..] ==>
      (k in CandidateExchange(s, verb, path).docs <==> k in s.docs)
    ensures forall k :: ParseName(path).Some? && k != path[1..] && k in s.docs ==>
      CandidateExchange(s, verb, path).docs[k] == s.docs[k]
  {
  }

  /** Write-then-read: after a POST that succeeded, a GET of the same name
      (through any path with the same tail) answers 200 with the written
      object. */
  lemma PostThenGet(s: Store, post: string, get: string)
    requires s.outage.None? && ParseName(post).Some?
    requires |get| >= 1 && get[1..] == post[1..]
    ensures var after := Store(CandidateExchange(s, "POST", post).docs, s.outage);
      CandidateExchange(after, "GET", get).response == Response(200, Object(CandidateDoc(post[1..])))
  {
  }

  /** A second POST of the same name leaves the store as the first left it
      and answers the same. */
  lemma PostIdempotent(s: Store, path: string)
    ensures var e1 := CandidateExchange(s, "POST", path);
      var e2 := CandidateExchange(Store(e1.docs, s.outage), "POST", path);
      e2.docs == e1.docs && e2.response == e1.response
  {
  }

  /** The listing holds each record exactly as many times as documents
      hold it: no record is lost, none is invented, none is repeated. */
  lemma ListingMatchesDocuments(items: seq<Record>, docs: map<string, Record>)
    requires multiset(items) == RecordBag(docs)
    ensures |items| == |docs|
    ensures forall record :: multiset(items)[record] == |KeysHolding(docs, record)|
    ensures forall record :: record in items <==> record in docs.Values
    ensures docs == map[] ==> items == []
  {
    RecordBagSize(docs);
    forall record ensures multiset(items)[record] == |KeysHolding(docs, record)| {
      RecordBagCount(docs, record);
    }
    forall record ensures record in items <==> record in docs.Values {
      assert record in items <==> multiset(items)[record] > 0;
      if record in docs.Values {
        var k :| k in docs && docs[k] == record;
        assert k in KeysHolding(docs, record);
      }
      if record in items {
        var k :| k in KeysHolding(docs, record);
        assert docs[k] in docs.Values;
      }
    }
  }

  /** The example exchanges: POST /alice, GET /alice, GET /bob, GET /a/b
      and DELETE /alice, in that order, on an empty collection. */
  lemma AliceScenario()
    ensures var s0 := Store(map[], None);
      var post := CandidateExchange(s0, "POST", "/alice");
      var s1 := Store(post.docs, None);
      && post.response == Response(200, Object(map["CandidateName" := "alice"]))
      && CandidateExchange(s1, "GET", "/alice").response == Response(200, Object(map["CandidateName" := "alice"]))
      && CandidateExchange(s1, "GET", "/bob").response == ErrorResponse(404, "name not found")
      && CandidateExchange(s1, "GET", "/a/b").response == ErrorResponse(400, "name is invalid")
      && CandidateExchange(s1, "DELETE", "/alice").response == ErrorResponse(405, "Method not allowed")
  {
  }
}
