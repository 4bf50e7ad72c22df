/**
  The older reconciliation task `SyncDatabaseRules`: select the submitted, not-yet-done
  documents created in a window and update them one at a time with the oldest indexer.
 */
module Comms {
  import opened Wrappers
  import opened Values
  import opened EsStore
  import opened RucioWrappers
  import opened RuleDocs
  import opened Tasks
  import Db

  /** The task's keyword arguments; None stands for a missing key. */
  datatype Kwargs = Kwargs(databaseType: Option<string>, uri: Option<string>, index: Option<string>,
                           searchRangeLte: Option<int>, searchRangeGte: Option<int>, maxRows: Option<nat>)

  predicate Complete(a: Kwargs)
  {
    a.databaseType.Some? && a.uri.Some? && a.index.Some? && a.searchRangeLte.Some? && a.searchRangeGte.Some?
    && a.maxRows.Some?
  }

  /** The query: submitted, not done, created in `[gte, lte]`; no task name. */
  function Selection(gte: int, lte: int): seq<Filter>
  {
    [Term("is_submitted", Int(1)), Term("is_done", Int(0)), Range("created_at", gte, lte)]
  }

  lemma SelectionMeans(d: Doc, gte: int, lte: int)
    ensures Matches(d, Selection(gte, lte)) <==>
      ("is_submitted" in d && d["is_submitted"] == Int(1))
      && ("is_done" in d && d["is_done"] == Int(0))
      && ("created_at" in d && d["created_at"].Time? && gte <= d["created_at"].secs <= lte)
  {
    var fs := Selection(gte, lte);
    if Matches(d, fs) {
      assert Holds(d, fs[0]) && Holds(d, fs[1]) && Holds(d, fs[2]);
    }
  }

  /** One `updateRuleWithDID(ruleID, index)`: the new documents, or None when it raised. */
  function UpdateOne(docs: map<DocKey, Doc>, rejected: set<DocKey>, g: Grid, index: string, id: Value)
    : Option<map<DocKey, Doc>>
  {
    var k := DocKey(index, Render(id));
    match Db.UpdateOutcome(g, id, map[], StoredAt(docs, rejected, k))
    case Raised => None
    case Ok(None) => Some(docs)
    case Ok(Some(b)) => Some(Updated(docs, rejected, k, b))
  }

  /**
    The hits updated in result order, one update each. Nothing catches an exception,
    so a hit without a `rule_id` or an update that raises ends the loop and the task.
   */
  function UpdateInOrder(docs: map<DocKey, Doc>, rejected: set<DocKey>, g: Grid, index: string, hits: seq<Hit>)
    : (map<DocKey, Doc>, Ending)
    decreases |hits|
  {
    if hits == [] then (docs, Finished)
    else match Get(hits[0].source, "rule_id")
      case None => (docs, Raising)
      case Some(id) =>
        match UpdateOne(docs, rejected, g, index, id)
        case None => (docs, Raising)
        case Some(next) => UpdateInOrder(next, rejected, g, index, hits[1..])
  }

  lemma UpdateOneFrame(docs: map<DocKey, Doc>, rejected: set<DocKey>, g: Grid, index: string, id: Value, other: DocKey)
    ensures UpdateOne(docs, rejected, g, index, id).Some? ==>
      UpdateOne(docs, rejected, g, index, id).value.Keys == docs.Keys
      && (other != DocKey(index, Render(id)) && other in docs ==> UpdateOne(docs, rejected, g, index, id).value[other] == docs[other])
  {
    var k := DocKey(index, Render(id));
    var out := Db.UpdateOutcome(g, id, map[], StoredAt(docs, rejected, k));
    if out.Ok? && out.value.Some? {
      UpdatedFrame(docs, rejected, k, out.value.value, other);
    }
  }

  /** The hits processed before the loop stopped: all of them, or those before the stopping one. */
  predicate Reached(index: string, hits: seq<Hit>, k: DocKey)
  {
    exists i :: 0 <= i < |hits| && "rule_id" in hits[i].source && k == DocKey(index, Render(hits[i].source["rule_id"]))
  }

  /**
    The loop creates and deletes no document and changes only those of rules its hits
    name; it ends normally only when every hit has a rule id.
   */
  lemma {:induction false} UpdateInOrderFrame(docs: map<DocKey, Doc>, rejected: set<DocKey>, g: Grid, index: string,
                                              hits: seq<Hit>, k: DocKey)
    ensures UpdateInOrder(docs, rejected, g, index, hits).0.Keys == docs.Keys
    ensures k in docs && !Reached(index, hits, k) ==> UpdateInOrder(docs, rejected, g, index, hits).0[k] == docs[k]
    ensures UpdateInOrder(docs, rejected, g, index, hits).1 == Finished ==>
      forall i :: 0 <= i < |hits| ==> "rule_id" in hits[i].source
    decreases |hits|
  {
    if hits != [] && "rule_id" in hits[0].source {
      var id := hits[0].source["rule_id"];
      UpdateOneFrame(docs, rejected, g, index, id, k);
      assert Reached(index, hits, DocKey(index, Render(id)));
      var one := UpdateOne(docs, rejected, g, index, id);
      if one.Some? {
        UpdateInOrderFrame(one.value, rejected, g, index, hits[1..], k);
        if UpdateInOrder(docs, rejected, g, index, hits).1 == Finished {
          forall i | 1 <= i < |hits| ensures "rule_id" in hits[i].source {
            assert hits[i] == hits[1..][i - 1];
          }
        }
      }
    }
  }

  lemma UpdateStep(docs: map<DocKey, Doc>, rejected: set<DocKey>, g: Grid, index: string, hits: seq<Hit>, id: Value)
    requires hits != [] && Get(hits[0].source, "rule_id") == Some(id)
    ensures UpdateInOrder(docs, rejected, g, index, hits)
      == match UpdateOne(docs, rejected, g, index, id)
         case None => (docs, Raising)
         case Some(next) => UpdateInOrder(next, rejected, g, index, hits[1..])
  {
  }

  /**
    `run`: a missing argument exits; unless the database type is 'es' nothing happens;
    otherwise search, then update the hits one at a time in result order.
   */
  method Run(store: Store, g: Grid, a: Kwargs) returns (end: Ending, hits: seq<Hit>)
    modifies store
    ensures !Complete(a) ==> end == Exited && store.docs == old(store.docs)
    ensures Complete(a) && a.databaseType.value != "es" ==> end == Finished && store.docs == old(store.docs)
    ensures Complete(a) && a.databaseType.value == "es" && store.searchFails ==> end == Exited && store.docs == old(store.docs)
    ensures Complete(a) && a.databaseType.value == "es" && !store.searchFails ==>
      var fs := Selection(a.searchRangeGte.value, a.searchRangeLte.value);
      HitsFrom(hits, old(store.docs), a.index.value, fs) && DistinctIds(hits)
      && |hits| == Min(a.maxRows.value, |MatchingKeys(old(store.docs), a.index.value, fs)|)
      && (store.docs, end) == UpdateInOrder(old(store.docs), store.rejected, g, a.index.value, hits)
  {
    hits := [];
    if !Complete(a) {
      return Exited, hits;
    }
    if a.databaseType.value != "es" {
      return Finished, hits;
    }
    var index := a.index.value;
    var found := SearchOrExit(store, index, Selection(a.searchRangeGte.value, a.searchRangeLte.value), a.maxRows.value);
    if found.None? {
      return Exited, hits;
    }
    hits := found.value;
    var i := 0;
    while i < |hits|
      invariant i <= |hits|
      invariant UpdateInOrder(store.docs, store.rejected, g, index, hits[i..])
        == UpdateInOrder(old(store.docs), store.rejected, g, index, hits)
    {
      assert hits[i..][0] == hits[i] && hits[i..][1..] == hits[i + 1..];
      var id := Get(hits[i].source, "rule_id");
      if id.None? {
        return Raising, hits;
      }
      UpdateStep(store.docs, store.rejected, g, index, hits[i..], id.value);
      var r := Db.UpdateRuleWithDID(store, g, id.value, index, map[]);
      if r.Raised? {
        return Raising, hits;
      }
      i := i + 1;
    }
    return Finished, hits;
  }
}
