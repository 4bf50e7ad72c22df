/**
  The reconciliation task `SyncESDatabase`: select the not-yet-done documents of one
  task in a creation-time window and run the package indexer's update for each.
 */
module SyncDatabase {
  import opened Wrappers
  import opened Values
  import opened EsStore
  import opened RucioWrappers
  import opened RuleDocs
  import opened Tasks
  import EsRucio

  /** The task's keyword arguments; None stands for a missing key. */
  datatype Kwargs = Kwargs(ftsEndpoint: Option<string>, taskNameToUpdate: Option<string>, nWorkers: Option<int>,
                           uri: Option<string>, index: Option<string>, searchRangeLte: Option<int>,
                           searchRangeGte: Option<int>, maxRows: Option<nat>)

  predicate Complete(a: Kwargs)
  {
    a.ftsEndpoint.Some? && a.taskNameToUpdate.Some? && a.nWorkers.Some? && a.uri.Some? && a.index.Some?
    && a.searchRangeLte.Some? && a.searchRangeGte.Some? && a.maxRows.Some?
  }

  /** The query: the task's documents, not done, created in `[gte, lte]`. */
  function Selection(taskName: string, gte: int, lte: int): seq<Filter>
  {
    [Term("task_name", Str(taskName)), Term("is_done", Int(0)), Range("created_at", gte, lte)]
  }

  /** A document is selected exactly when it belongs to the task, is not done and was created in the window. */
  lemma SelectionMeans(d: Doc, taskName: string, gte: int, lte: int)
    ensures Matches(d, Selection(taskName, gte, lte)) <==>
      ("task_name" in d && d["task_name"] == Str(taskName))
      && ("is_done" in d && d["is_done"] == Int(0))
      && ("created_at" in d && d["created_at"].Time? && gte <= d["created_at"].secs <= lte)
  {
    var fs := Selection(taskName, gte, lte);
    if Matches(d, fs) {
      assert Holds(d, fs[0]) && Holds(d, fs[1]) && Holds(d, fs[2]);
    }
  }

  /** One worker's `updateRuleWithDID(ruleID, index, ftsEndpoint)`; an exception there is lost with the worker. */
  function Dispatched(docs: map<DocKey, Doc>, rejected: set<DocKey>, g: Grid, fts: map<string, seq<int>>,
                      index: string, endpoint: string, id: Value): map<DocKey, Doc>
  {
    var k := DocKey(index, Render(id));
    match EsRucio.UpdateOutcome(g, fts, id, endpoint, map[], StoredAt(docs, rejected, k))
    case Ok(Some(b)) => Updated(docs, rejected, k, b)
    case _ => docs
  }

  /**
    One update per hit, in hit order (the workers' units are independent); a hit without
    a `rule_id` raises in the dispatching loop. The flag says whether it raised.
   */
  function DispatchAll(docs: map<DocKey, Doc>, rejected: set<DocKey>, g: Grid, fts: map<string, seq<int>>,
                       index: string, endpoint: string, hits: seq<Hit>): (map<DocKey, Doc>, bool)
    decreases |hits|
  {
    if hits == [] then (docs, false)
    else match Get(hits[0].source, "rule_id")
      case None => (docs, true)
      case Some(id) => DispatchAll(Dispatched(docs, rejected, g, fts, index, endpoint, id), rejected, g, fts, index,
                                   endpoint, hits[1..])
  }

  lemma DispatchedFrame(docs: map<DocKey, Doc>, rejected: set<DocKey>, g: Grid, fts: map<string, seq<int>>,
                        index: string, endpoint: string, id: Value, other: DocKey)
    ensures Dispatched(docs, rejected, g, fts, index, endpoint, id).Keys == docs.Keys
    ensures other != DocKey(index, Render(id)) && other in docs ==>
      Dispatched(docs, rejected, g, fts, index, endpoint, id)[other] == docs[other]
  {
    var k := DocKey(index, Render(id));
    var out := EsRucio.UpdateOutcome(g, fts, id, endpoint, map[], StoredAt(docs, rejected, k));
    if out.Ok? && out.value.Some? {
      UpdatedFrame(docs, rejected, k, out.value.value, other);
    }
  }

  /** A rule id the hits name, up to the first hit without one. */
  predicate Named(index: string, hits: seq<Hit>, k: DocKey)
  {
    exists i :: 0 <= i < |hits| && (forall j :: 0 <= j < i ==> "rule_id" in hits[j].source)
      && "rule_id" in hits[i].source && k == DocKey(index, Render(hits[i].source["rule_id"]))
  }

  /**
    The synchronisation creates and deletes no document, and changes none but those of
    the rules its hits name.
   */
  lemma {:induction false} DispatchFrame(docs: map<DocKey, Doc>, rejected: set<DocKey>, g: Grid, fts: map<string, seq<int>>,
                                         index: string, endpoint: string, hits: seq<Hit>, k: DocKey)
    ensures DispatchAll(docs, rejected, g, fts, index, endpoint, hits).0.Keys == docs.Keys
    ensures k in docs && !Named(index, hits, k) ==> DispatchAll(docs, rejected, g, fts, index, endpoint, hits).0[k] == docs[k]
    decreases |hits|
  {
    if hits != [] && "rule_id" in hits[0].source {
      var id := hits[0].source["rule_id"];
      var next := Dispatched(docs, rejected, g, fts, index, endpoint, id);
      DispatchedFrame(docs, rejected, g, fts, index, endpoint, id, k);
      DispatchFrame(next, rejected, g, fts, index, endpoint, hits[1..], k);
      assert Named(index, hits, DocKey(index, Render(id)));
    }
  }

  lemma DispatchStep(docs: map<DocKey, Doc>, rejected: set<DocKey>, g: Grid, fts: map<string, seq<int>>,
                     index: string, endpoint: string, hits: seq<Hit>, id: Value)
    requires hits != [] && Get(hits[0].source, "rule_id") == Some(id)
    ensures DispatchAll(docs, rejected, g, fts, index, endpoint, hits)
      == DispatchAll(Dispatched(docs, rejected, g, fts, index, endpoint, id), rejected, g, fts, index, endpoint, hits[1..])
  {
  }

  /**
    `run`: read the arguments, search, then dispatch one update per hit with that hit's
    rule id, the configured index and the FTS endpoint. A failed update stops nothing; a
    worker count below one raises when the pool is made, after the search.
   */
  method Run(store: Store, g: Grid, fts: map<string, seq<int>>, a: Kwargs) returns (end: Ending, hits: seq<Hit>)
    modifies store
    ensures !Complete(a) ==> end == ReturnedFalse && store.docs == old(store.docs)
    ensures Complete(a) && store.searchFails ==> end == Exited && store.docs == old(store.docs)
    ensures Complete(a) && !store.searchFails ==>
      var fs := Selection(a.taskNameToUpdate.value, a.searchRangeGte.value, a.searchRangeLte.value);
      HitsFrom(hits, old(store.docs), a.index.value, fs) && DistinctIds(hits)
      && |hits| == Min(a.maxRows.value, |MatchingKeys(old(store.docs), a.index.value, fs)|)
      && (a.nWorkers.value < 1 ==> end == Raising && store.docs == old(store.docs))
      && (a.nWorkers.value >= 1 ==>
            (end == Finished || end == Raising)
            && (store.docs, end == Raising)
               == DispatchAll(old(store.docs), store.rejected, g, fts, a.index.value, a.ftsEndpoint.value, hits))
  {
    hits := [];
    if !Complete(a) {
      return ReturnedFalse, hits;
    }
    var index, endpoint := a.index.value, a.ftsEndpoint.value;
    var fs := Selection(a.taskNameToUpdate.value, a.searchRangeGte.value, a.searchRangeLte.value);
    var found := SearchOrExit(store, index, fs, a.maxRows.value);
    if found.None? {
      return Exited, hits;
    }
    hits := found.value;
    if a.nWorkers.value < 1 {
      return Raising, hits;  // `Pool(n)` refuses fewer than one process
    }
    var i := 0;
    while i < |hits|
      invariant i <= |hits|
      invariant DispatchAll(store.docs, store.rejected, g, fts, index, endpoint, hits[i..])
        == DispatchAll(old(store.docs), store.rejected, g, fts, index, endpoint, hits)
    {
      assert hits[i..][0] == hits[i] && hits[i..][1..] == hits[i + 1..];
      var id := Get(hits[i].source, "rule_id");
      if id.None? {
        return Raising, hits;
      }
      DispatchStep(store.docs, store.rejected, g, fts, index, endpoint, hits[i..], id.value);
      var _ := EsRucio.UpdateRuleWithDID(store, g, fts, id.value, index, endpoint, map[]);
      i := i + 1;
    }
    return Finished, hits;
  }
}
