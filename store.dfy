/**
  The Elasticsearch index the tasks read and write, as an in-memory map from
  (index, document id) to document, with the get/index/update/search calls that
  the repository's database wrappers make on it.
 */
module EsStore {
  import opened Wrappers
  import opened Seqs
  import opened Values

  datatype DocKey = DocKey(index: string, id: string)

  /** One search hit: `hit['_id']` and `hit['_source']`. */
  datatype Hit = Hit(id: string, source: Doc)

  /** One clause of a `bool`/`filter` query. A `x.keyword` term is a `Term` on `x` with a string value. */
  datatype Filter =
    | Term(field: string, value: Value)
    | Range(field: string, gte: int, lte: int)  // inclusive bounds on a timestamp field

  predicate Holds(d: Doc, f: Filter)
  {
    match f
    case Term(k, v) => k in d && d[k] == v
    case Range(k, lo, hi) => k in d && d[k].Time? && lo <= d[k].secs <= hi
  }

  /** A document satisfies every clause of the filter list. */
  predicate Matches(d: Doc, fs: seq<Filter>)
  {
    forall i :: 0 <= i < |fs| ==> Holds(d, fs[i])
  }

  /** Keys of the documents of `index` that satisfy `fs`. */
  function MatchingKeys(docs: map<DocKey, Doc>, index: string, fs: seq<Filter>): set<DocKey>
  {
    set k | k in docs && k.index == index && Matches(docs[k], fs)
  }

  function Min(a: int, b: int): int
  {
    if a <= b then a else b
  }

  /** A document update with `{"doc": partial}`: top-level keys of `partial` replace the stored ones. */
  function Merged(docs: map<DocKey, Doc>, k: DocKey, partial: Doc): map<DocKey, Doc>
    requires k in docs
  {
    docs[k := docs[k] + partial]
  }

  /** Every hit is a stored document of `index` that matches. */
  predicate HitsFrom(hits: seq<Hit>, docs: map<DocKey, Doc>, index: string, fs: seq<Filter>)
  {
    forall i :: 0 <= i < |hits| ==>
      DocKey(index, hits[i].id) in docs && docs[DocKey(index, hits[i].id)] == hits[i].source
      && Matches(hits[i].source, fs)
  }

  predicate DistinctIds(hits: seq<Hit>)
  {
    forall i, j :: 0 <= i < j < |hits| ==> hits[i].id != hits[j].id
  }

  /** Every key of `ks` is returned as a hit. */
  predicate Covers(hits: seq<Hit>, ks: set<DocKey>)
  {
    forall k :: k in ks ==> exists i :: 0 <= i < |hits| && hits[i].id == k.id
  }

  /** One step of the search loop: append the hit for a key not yet taken. */
  lemma Take(hits: seq<Hit>, taken: set<DocKey>, index: string, k: DocKey, d: Doc)
    requires k.index == index && k !in taken
    requires forall i :: 0 <= i < |hits| ==> DocKey(index, hits[i].id) in taken
    requires DistinctIds(hits) && Covers(hits, taken) && |taken| == |hits|
    ensures var hits', taken' := hits + [Hit(k.id, d)], taken + {k};
      (forall i :: 0 <= i < |hits'| ==> DocKey(index, hits'[i].id) in taken')
      && DistinctIds(hits') && Covers(hits', taken') && |taken'| == |hits'|
  {
    var h := Hit(k.id, d);
    forall i | 0 <= i < |hits| ensures hits[i].id != h.id {
      assert DocKey(index, hits[i].id) in taken;
    }
    DistinctSnoc(hits, h);
    CoversSnoc(hits, taken, h, k);
    SnocAt(hits, h);
    CardAdd(taken, k);
  }

  lemma DistinctSnoc(hits: seq<Hit>, h: Hit)
    requires DistinctIds(hits) && forall i :: 0 <= i < |hits| ==> hits[i].id != h.id
    ensures DistinctIds(hits + [h])
  {
    SnocAt(hits, h);
  }

  lemma CoversSnoc(hits: seq<Hit>, taken: set<DocKey>, h: Hit, k: DocKey)
    requires Covers(hits, taken) && h.id == k.id
    ensures Covers(hits + [h], taken + {k})
  {
    var hits' := hits + [h];
    SnocAt(hits, h);
    forall k' | k' in taken + {k}
      ensures exists i :: 0 <= i < |hits'| && hits'[i].id == k'.id
    {
      if k' == k {
        assert hits'[|hits|].id == k'.id;
      } else {
        var i :| 0 <= i < |hits| && hits[i].id == k'.id;
        assert hits'[i].id == k'.id;
      }
    }
  }

  lemma HitsFromAppend(hits: seq<Hit>, docs: map<DocKey, Doc>, index: string, fs: seq<Filter>, k: DocKey)
    requires HitsFrom(hits, docs, index, fs)
    requires k in docs && k.index == index && Matches(docs[k], fs)
    ensures HitsFrom(hits + [Hit(k.id, docs[k])], docs, index, fs)
  {
    assert DocKey(index, k.id) == k;
  }

  /** The invariant of the search loop: `taken` are the matches already visited, one hit each. */
  ghost predicate SearchInv(docs: map<DocKey, Doc>, index: string, fs: seq<Filter>, maxRows: nat,
                            todo: set<DocKey>, taken: set<DocKey>, hits: seq<Hit>)
  {
    && todo <= docs.Keys
    && taken == MatchingKeys(docs, index, fs) - todo
    && |taken| == |hits| <= maxRows
    && (forall i :: 0 <= i < |hits| ==> DocKey(index, hits[i].id) in taken)
    && HitsFrom(hits, docs, index, fs)
    && DistinctIds(hits)
    && Covers(hits, taken)
  }

  lemma SearchTake(docs: map<DocKey, Doc>, index: string, fs: seq<Filter>, maxRows: nat,
                   todo: set<DocKey>, taken: set<DocKey>, hits: seq<Hit>, k: DocKey)
    requires SearchInv(docs, index, fs, maxRows, todo, taken, hits) && |hits| < maxRows
    requires k in todo && k.index == index && Matches(docs[k], fs)
    ensures SearchInv(docs, index, fs, maxRows, todo - {k}, taken + {k}, hits + [Hit(k.id, docs[k])])
  {
    Take(hits, taken, index, k, docs[k]);
    HitsFromAppend(hits, docs, index, fs, k);
  }

  lemma SearchSkip(docs: map<DocKey, Doc>, index: string, fs: seq<Filter>, maxRows: nat,
                   todo: set<DocKey>, taken: set<DocKey>, hits: seq<Hit>, k: DocKey)
    requires SearchInv(docs, index, fs, maxRows, todo, taken, hits)
    requires k in todo && !(k.index == index && Matches(docs[k], fs))
    ensures SearchInv(docs, index, fs, maxRows, todo - {k}, taken, hits)
  {
  }

  lemma SubsetCard<T>(a: set<T>, b: set<T>)
    requires a <= b
    ensures |a| <= |b|
  {
    if a != {} {
      var x :| x in a;
      SubsetCard(a - {x}, b - {x});
    }
  }

  /**
    The wrappers' `_search`: the hits, or None when the search fails, where the wrapper
    logs and ends the process with `exit()`.
   */
  method SearchOrExit(store: Store, index: string, fs: seq<Filter>, maxRows: nat) returns (r: Option<seq<Hit>>)
    ensures r.None? <==> store.searchFails
    ensures r.Some? ==>
      HitsFrom(r.value, store.docs, index, fs) && DistinctIds(r.value)
      && |r.value| == Min(maxRows, |MatchingKeys(store.docs, index, fs)|)
      && (|r.value| < maxRows ==> Covers(r.value, MatchingKeys(store.docs, index, fs)))
  {
    var ok, hits := store.Search(index, fs, maxRows);
    r := if ok then Some(hits) else None;
  }

  /** One `es.index(index, id, body)` request. */
  datatype Write = Write(index: string, id: string, body: Doc)

  function WriteKey(w: Write): DocKey
  {
    DocKey(w.index, w.id)
  }

  /** The documents after the index requests `ws`, in order; a rejected request changes nothing. */
  function Apply(docs: map<DocKey, Doc>, rejected: set<DocKey>, ws: seq<Write>): map<DocKey, Doc>
    decreases |ws|
  {
    if ws == [] then docs
    else
      var w := ws[|ws| - 1];
      var before := Apply(docs, rejected, ws[..|ws| - 1]);
      if WriteKey(w) in rejected then before else before[WriteKey(w) := w.body]
  }

  lemma ApplySnoc(docs: map<DocKey, Doc>, rejected: set<DocKey>, ws: seq<Write>, w: Write)
    ensures Apply(docs, rejected, ws + [w])
      == if WriteKey(w) in rejected then Apply(docs, rejected, ws) else Apply(docs, rejected, ws)[WriteKey(w) := w.body]
  {
    assert (ws + [w])[..|ws|] == ws;
  }

  /**
    With distinct keys, every accepted request leaves its body stored, and a key no
    request names keeps what it had.
   */
  lemma {:induction false} ApplyDistinct(docs: map<DocKey, Doc>, rejected: set<DocKey>, ws: seq<Write>)
    requires forall i, j :: 0 <= i < j < |ws| ==> WriteKey(ws[i]) != WriteKey(ws[j])
    ensures forall i :: 0 <= i < |ws| && WriteKey(ws[i]) !in rejected ==>
      WriteKey(ws[i]) in Apply(docs, rejected, ws) && Apply(docs, rejected, ws)[WriteKey(ws[i])] == ws[i].body
    ensures forall k :: (forall i :: 0 <= i < |ws| ==> WriteKey(ws[i]) != k) ==>
      (k in Apply(docs, rejected, ws) <==> k in docs)
      && (k in docs ==> Apply(docs, rejected, ws)[k] == docs[k])
    decreases |ws|
  {
    if ws != [] {
      var n := |ws| - 1;
      var init := ws[..n];
      assert forall i :: 0 <= i < n ==> init[i] == ws[i];
      ApplyDistinct(docs, rejected, init);
      forall i | 0 <= i < |ws| && WriteKey(ws[i]) !in rejected
        ensures WriteKey(ws[i]) in Apply(docs, rejected, ws) && Apply(docs, rejected, ws)[WriteKey(ws[i])] == ws[i].body
      {
        if i < n {
          assert WriteKey(ws[i]) != WriteKey(ws[n]);
          assert WriteKey(init[i]) !in rejected;
        }
      }
      forall k | forall i :: 0 <= i < |ws| ==> WriteKey(ws[i]) != k
        ensures (k in Apply(docs, rejected, ws) <==> k in docs)
                && (k in docs ==> Apply(docs, rejected, ws)[k] == docs[k])
      {
        assert WriteKey(ws[n]) != k;
        assert forall i :: 0 <= i < n ==> WriteKey(init[i]) != k;
      }
    }
  }

  /** One database entry of a task's `databases` list. */
  datatype Database = Database(kind: string, uri: string, index: string)

  /** The indexes of the `es` databases, in list order. */
  function EsIndexes(dbs: seq<Database>): (r: seq<string>)
    ensures |r| <= |dbs|
  {
    if dbs == [] then []
    else EsIndexes(dbs[..|dbs| - 1]) + (if dbs[|dbs| - 1].kind == "es" then [dbs[|dbs| - 1].index] else [])
  }

  lemma EsIndexesSnoc(dbs: seq<Database>, i: nat)
    requires i < |dbs|
    ensures EsIndexes(dbs[..i + 1]) == EsIndexes(dbs[..i]) + (if dbs[i].kind == "es" then [dbs[i].index] else [])
  {
    assert dbs[..i + 1][..i] == dbs[..i];
  }

  /** Applying two runs of writes is applying the first, then the second. */
  lemma {:induction false} ApplyConcat(docs: map<DocKey, Doc>, rejected: set<DocKey>, a: seq<Write>, b: seq<Write>)
    ensures Apply(docs, rejected, a + b) == Apply(Apply(docs, rejected, a), rejected, b)
    decreases |b|
  {
    if b == [] {
      assert a + b == a;
    } else {
      var n := |b| - 1;
      assert (a + b)[..|a + b| - 1] == a + b[..n];
      ApplyConcat(docs, rejected, a, b[..n]);
    }
  }

  class Store {
    /** The documents currently stored. */
    var docs: map<DocKey, Doc>
    /** Keys on which the backend refuses requests (transport errors, mapping conflicts). */
    const rejected: set<DocKey>
    /** Whether search requests fail. */
    const searchFails: bool

    constructor (initial: map<DocKey, Doc>, rejected: set<DocKey>, searchFails: bool)
      ensures docs == initial && this.rejected == rejected && this.searchFails == searchFails
    {
      docs := initial;
      this.rejected := rejected;
      this.searchFails := searchFails;
    }

    /** `es.get(index, id)`: the stored document, or None when it is missing or the request fails. */
    method Get(index: string, id: string) returns (r: Option<Doc>)
      ensures var k := DocKey(index, id);
        r == if k in docs && k !in rejected then Some(docs[k]) else None
    {
      var k := DocKey(index, id);
      if k in docs && k !in rejected {
        r := Some(docs[k]);
      } else {
        r := None;
      }
    }

    /** `es.index(index, id, body)`: create or replace the document. */
    method Index(index: string, id: string, body: Doc) returns (ok: bool)
      modifies this
      ensures ok == (DocKey(index, id) !in rejected)
      ensures docs == if ok then old(docs)[DocKey(index, id) := body] else old(docs)
      ensures docs == Apply(old(docs), rejected, [Write(index, id, body)])
    {
      var k := DocKey(index, id);
      ok := k !in rejected;
      if ok {
        docs := docs[k := body];
      }
    }

    /** `es.update(index, id, {"doc": partial})`: merge into an existing document; fails if it is missing. */
    method Update(index: string, id: string, partial: Doc) returns (ok: bool)
      modifies this
      ensures ok == (DocKey(index, id) in old(docs) && DocKey(index, id) !in rejected)
      ensures docs == if ok then Merged(old(docs), DocKey(index, id), partial) else old(docs)
    {
      var k := DocKey(index, id);
      ok := k in docs && k !in rejected;
      if ok {
        docs := Merged(docs, k, partial);
      }
    }

    /**
      `es.search(index, size=maxRows, body=filter query)`: the matching documents of
      `index`, each once, in an order the store chooses, at most `maxRows` of them.
     */
    method Search(index: string, fs: seq<Filter>, maxRows: nat) returns (ok: bool, hits: seq<Hit>)
      ensures ok == !searchFails
      ensures !ok ==> hits == []
      ensures HitsFrom(hits, docs, index, fs)
      ensures DistinctIds(hits)
      ensures ok ==> |hits| == Min(maxRows, |MatchingKeys(docs, index, fs)|)
      ensures ok && |hits| < maxRows ==> Covers(hits, MatchingKeys(docs, index, fs))
    {
      hits := [];
      ok := !searchFails;
      if !ok {
        return;
      }
      var todo := docs.Keys;
      ghost var taken: set<DocKey> := {};
      while todo != {} && |hits| < maxRows
        invariant SearchInv(docs, index, fs, maxRows, todo, taken, hits)
        decreases todo
      {
        var k :| k in todo;
        if k.index == index && Matches(docs[k], fs) {
          SearchTake(docs, index, fs, maxRows, todo, taken, hits, k);
          hits, taken := hits + [Hit(k.id, docs[k])], taken + {k};
        } else {
          SearchSkip(docs, index, fs, maxRows, todo, taken, hits, k);
        }
        todo := todo - {k};
      }
      SubsetCard(taken, MatchingKeys(docs, index, fs));
    }
  }
}
