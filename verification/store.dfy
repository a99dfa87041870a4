/** The "candidates" document collection the handlers talk to, as an in-memory
    store: a map from document name to record, plus the failure mode of the
    store service (every call raises with one message while it is down). A
    ghost log of the calls made lets contracts say when the store was, or was
    not, accessed at all. */
module DocumentStore {
  import opened Envelope

  /** The observable state of the collection. */
  datatype Store = Store(docs: map<string, Record>, outage: Option<string>)

  /** One access to the store, as the handlers issue it. */
  datatype Call = Read(key: string) | Write(key: string, record: Record) | Scan

  /** `document(key).get()`: the record when the key exists, None when not. */
  function Fetch(s: Store, key: string): (r: Reply<Option<Record>>)
    ensures r.Raised? <==> s.outage.Some?
    ensures r.Raised? ==> r.message == s.outage.value
    ensures r.Ok? ==> (r.value.Some? <==> key in s.docs)
    ensures r.Ok? && r.value.Some? ==> r.value.value == s.docs[key]
  {
    match s.outage
    case Some(msg) => Raised(msg)
    case None => Ok(if key in s.docs then Some(s.docs[key]) else None)
  }

  /** The documents after `document(key).set(record)`: an upsert when the store
      is up, nothing when the call raises. */
  function Upsert(s: Store, key: string, record: Record): (docs: map<string, Record>)
    ensures s.outage.None? ==> key in docs && docs[key] == record
    ensures forall k :: k != key ==> (k in docs <==> k in s.docs)
    ensures forall k :: k in docs && k != key ==> docs[k] == s.docs[k]
    ensures s.outage.Some? ==> docs == s.docs
  {
    if s.outage.None? then s.docs[key := record] else s.docs
  }

  /** The multiset of the records stored under `keys`. */
  ghost function BagOf(docs: map<string, Record>, keys: set<string>): multiset<Record>
    requires keys <= docs.Keys
  {
    if keys == {} then multiset{}
    else
      var k :| k in keys;
      multiset{docs[k]} + BagOf(docs, keys - {k})
  }

  /** The multiset of stored records: one occurrence per document. */
  ghost function RecordBag(docs: map<string, Record>): multiset<Record>
  {
    BagOf(docs, docs.Keys)
  }

  /** The names of the documents that hold `record`. */
  function KeysHolding(docs: map<string, Record>, record: Record): set<string>
  {
    set k | k in docs && docs[k] == record
  }

  /** BagOf does not depend on which document is taken out first. */
  lemma {:induction false} BagOfRemove(docs: map<string, Record>, keys: set<string>, k: string)
    requires keys <= docs.Keys && k in keys
    ensures BagOf(docs, keys) == multiset{docs[k]} + BagOf(docs, keys - {k})
    decreases keys
  {
    var j :| j in keys && BagOf(docs, keys) == multiset{docs[j]} + BagOf(docs, keys - {j});
    if j != k {
      assert (keys - {j}) - {k} == (keys - {k}) - {j};
      BagOfRemove(docs, keys - {j}, k);
      BagOfRemove(docs, keys - {k}, j);
    }
  }

  /** The records under the other keys do not change when one document is
      taken out of the map. */
  lemma {:induction false} BagOfFrame(docs: map<string, Record>, keys: set<string>, k: string)
    requires keys <= docs.Keys && k !in keys
    ensures BagOf(docs - {k}, keys) == BagOf(docs, keys)
    decreases keys
  {
    if keys != {} {
      var j :| j in keys;
      BagOfRemove(docs, keys, j);
      BagOfRemove(docs - {k}, keys, j);
      BagOfFrame(docs, keys - {j}, k);
    }
  }

  /** Taking document `k` out of the map takes one copy of its record out of
      the bag. */
  lemma RecordBagRemove(docs: map<string, Record>, k: string)
    requires k in docs
    ensures RecordBag(docs) == multiset{docs[k]} + RecordBag(docs - {k})
  {
    BagOfRemove(docs, docs.Keys, k);
    assert (docs - {k}).Keys == docs.Keys - {k};
    BagOfFrame(docs, docs.Keys - {k}, k);
  }

  /** One record in the bag per stored document. */
  lemma {:induction false} RecordBagSize(docs: map<string, Record>)
    ensures |RecordBag(docs)| == |docs|
    decreases |docs|
  {
    if docs != map[] {
      var k :| k in docs;
      RecordBagRemove(docs, k);
      RecordBagSize(docs - {k});
    }
  }

  /** Taking document `k` out of the map takes `k`, and only `k`, out of the
      keys holding its record. */
  lemma KeysHoldingRemove(docs: map<string, Record>, record: Record, k: string)
    requires k in docs
    ensures k !in KeysHolding(docs - {k}, record)
    ensures KeysHolding(docs, record)
      == KeysHolding(docs - {k}, record) + (if docs[k] == record then {k} else {})
  {
  }

  /** A record occurs in the bag exactly as often as documents hold it. */
  lemma {:induction false} RecordBagCount(docs: map<string, Record>, record: Record)
    ensures RecordBag(docs)[record] == |KeysHolding(docs, record)|
    decreases |docs|
  {
    if docs == map[] {
      assert KeysHolding(docs, record) == {};
    } else {
      var k :| k in docs;
      RecordBagRemove(docs, k);
      RecordBagCount(docs - {k}, record);
      KeysHoldingRemove(docs, record, k);
      var rest := KeysHolding(docs - {k}, record);
      if docs[k] == record {
        assert |rest + {k}| == |rest| + 1;
      } else {
        assert multiset{docs[k]}[record] == 0;
      }
    }
  }

  /** The live collection. Its methods stand for the store client's calls;
      each one logs itself in `calls`. */
  class Collection {
    var docs: map<string, Record>
    var outage: Option<string>
    ghost var calls: seq<Call>

    constructor (docs: map<string, Record>, outage: Option<string>)
      ensures this.docs == docs && this.outage == outage && calls == []
    {
      this.docs := docs;
      this.outage := outage;
      calls := [];
    }

    function State(): Store
      reads this
    {
      Store(docs, outage)
    }

    /** `collection.document(key).get()`. */
    method Get(key: string) returns (r: Reply<Option<Record>>)
      modifies this`calls
      ensures calls == old(calls) + [Read(key)]
      ensures r == Fetch(State(), key)
    {
      calls := calls + [Read(key)];
      match outage
      case Some(msg) => r := Raised(msg);
      case None =>
        if key in docs {
          r := Ok(Some(docs[key]));
        } else {
          r := Ok(None);
        }
    }

    /** `collection.document(key).set(record)`. */
    method Set(key: string, record: Record) returns (r: Reply<()>)
      modifies this`docs, this`calls
      ensures calls == old(calls) + [Write(key, record)]
      ensures docs == Upsert(old(State()), key, record)
      ensures r.Raised? <==> outage.Some?
      ensures r.Raised? ==> r.message == outage.value
    {
      calls := calls + [Write(key, record)];
      match outage
      case Some(msg) => r := Raised(msg);
      case None =>
        docs := docs[key := record];
        r := Ok(());
    }

    /** `collection.stream()`: every stored record once, in an order the store
        chooses. */
    method Stream() returns (r: Reply<seq<Record>>)
      modifies this`calls
      ensures calls == old(calls) + [Scan]
      ensures r.Raised? <==> outage.Some?
      ensures r.Raised? ==> r.message == outage.value
      ensures r.Ok? ==> multiset(r.value) == RecordBag(docs)
    {
      calls := calls + [Scan];
      if outage.Some? {
        return Raised(outage.value);
      }
      var rest := docs;
      var out: seq<Record> := [];
      while rest != map[]
        invariant calls == old(calls) + [Scan]
        invariant multiset(out) + RecordBag(rest) == RecordBag(docs)
        decreases |rest|
      {
        var k :| k in rest;
        RecordBagRemove(rest, k);
        out := out + [rest[k]];
        rest := rest - {k};
      }
      r := Ok(out);
    }
  }
}
