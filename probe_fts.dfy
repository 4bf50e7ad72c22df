/**
  The FTS transfer probe `ProbesFTSTransfers`: mark each transfer record with one status
  flag derived from its file state, then index every transfer, keyed by its file id, into
  each `es` database.
 */
module ProbeFts {
  import opened Wrappers
  import opened Seqs
  import opened Text
  import opened Values
  import opened EsStore
  import opened Tasks

  /** The task's keyword arguments; None stands for a missing key, `databases` may be None itself. */
  datatype Kwargs = Kwargs(endpoint: Option<string>, vo: Option<string>, databases: Option<Option<seq<Database>>>)

  predicate Complete(a: Kwargs)
  {
    a.endpoint.Some? && a.vo.Some? && a.databases.Some?
  }

  /** The monitoring URL the transfers are fetched from. */
  function TransfersUrl(endpoint: string, vo: string): string
  {
    RStrip(endpoint, {'/'}) + "/fts3/ftsmon/transfers?dest_se=&source_se=&time_window=1&vo=" + vo
  }

  /** A trailing slash on the endpoint makes no difference to the URL. */
  lemma TransfersUrlSlash(endpoint: string, vo: string)
    ensures TransfersUrl(endpoint + "/", vo) == TransfersUrl(endpoint, vo)
  {
    var s := endpoint + "/";
    assert s[..|s| - 1] == endpoint;
  }

  const StatusKeys: seq<string> := ["is_status_submitted", "is_status_active", "is_status_finished", "is_status_failed",
                                    "is_status_other"]

  /** The flag a file state sets. */
  function StatusKey(state: Value): (k: string)
    ensures k in StatusKeys
  {
    if state == Str("SUBMITTED") then "is_status_submitted"
    else if state == Str("ACTIVE") then "is_status_active"
    else if state == Str("FINISHED") then "is_status_finished"
    else if state == Str("FAILED") then "is_status_failed"
    else "is_status_other"
  }

  /** Each of the four named states sets its own flag, and every other state the catch-all. */
  lemma StatusKeyMeans(state: Value)
    ensures StatusKey(state) == StatusKeys[0] <==> state == Str("SUBMITTED")
    ensures StatusKey(state) == StatusKeys[1] <==> state == Str("ACTIVE")
    ensures StatusKey(state) == StatusKeys[2] <==> state == Str("FINISHED")
    ensures StatusKey(state) == StatusKeys[3] <==> state == Str("FAILED")
    ensures StatusKey(state) == StatusKeys[4] <==>
      state !in {Str("SUBMITTED"), Str("ACTIVE"), Str("FINISHED"), Str("FAILED")}
  {
  }

  /** A transfer after classification. */
  function Classified(t: Doc): Doc
    requires "file_state" in t
  {
    t[StatusKey(t["file_state"]) := Int(1)]
  }

  /**
    Classification adds one status key set to 1 and leaves every other field as it was;
    a transfer that had no status key afterwards has exactly one.
   */
  lemma ClassifiedMeans(t: Doc)
    requires "file_state" in t
    ensures var c := Classified(t); var k := StatusKey(t["file_state"]);
      c.Keys == t.Keys + {k} && c[k] == Int(1)
      && (forall f :: f in t && f != k ==> c[f] == t[f])
      && ((forall j :: 0 <= j < |StatusKeys| ==> StatusKeys[j] !in t) ==>
            forall j :: 0 <= j < |StatusKeys| ==> (StatusKeys[j] in c <==> StatusKeys[j] == k))
  {
  }

  /** The position of the first record lacking `key`, or the length when all have it. */
  function FirstWithout(ts: seq<Doc>, key: string): (m: nat)
    ensures m <= |ts|
    ensures forall i :: 0 <= i < m ==> key in ts[i]
    ensures m < |ts| ==> key !in ts[m]
    decreases |ts|
  {
    if ts == [] || key !in ts[0] then 0 else 1 + FirstWithout(ts[1..], key)
  }

  /** A transfer holding the key before the first one without it lies before that one. */
  lemma FirstWithoutPast(ts: seq<Doc>, key: string, i: nat)
    requires i <= FirstWithout(ts, key) && i < |ts| && key in ts[i]
    ensures i < FirstWithout(ts, key)
  {
  }

  /** The classification loop over the fetched transfers, in place; a transfer without a file state raises. */
  method ClassifyAll(ts: array<Doc>) returns (ok: bool)
    modifies ts
    ensures var m := FirstWithout(old(ts[..]), "file_state");
      ok == (m == ts.Length)
      && (forall i :: 0 <= i < m ==> ts[i] == Classified(old(ts[i])))
      && (forall i :: m <= i < ts.Length ==> ts[i] == old(ts[i]))
  {
    ghost var m := FirstWithout(ts[..], "file_state");
    var i := 0;
    while i < ts.Length
      invariant 0 <= i <= m
      invariant forall j :: 0 <= j < i ==> ts[j] == Classified(old(ts[j]))
      invariant forall j :: i <= j < ts.Length ==> ts[j] == old(ts[j])
    {
      ghost var t := old(ts[..]);
      assert t[i] == ts[i];
      if "file_state" !in ts[i] {
        return false;
      }
      FirstWithoutPast(t, "file_state", i);
      ts[i] := Classified(ts[i]);
      i := i + 1;
    }
    ok := true;
  }

  /** The indexed document: the timestamp in milliseconds, then the transfer's own fields, which win. */
  function Body(nowSecs: int, t: Doc): Doc
  {
    map["@timestamp" := Int(nowSecs * 1000)] + t
  }

  lemma BodyMeans(nowSecs: int, t: Doc)
    ensures Body(nowSecs, t).Keys == t.Keys + {"@timestamp"}
    ensures forall f :: f in t ==> Body(nowSecs, t)[f] == t[f]
    ensures "@timestamp" !in t ==> Body(nowSecs, t)["@timestamp"] == Int(nowSecs * 1000)
  {
  }

  /** The index request for one transfer, keyed by its file id. */
  function WriteOf(index: string, t: Doc, nowSecs: int): Write
    requires "file_id" in t
  {
    Write(index, Render(t["file_id"]), Body(nowSecs, t))
  }

  /** The index requests for the transfers of one database, in order. */
  function TransferWrites(index: string, ts: seq<Doc>, nowSecs: int): seq<Write>
    requires forall i :: 0 <= i < |ts| ==> "file_id" in ts[i]
    decreases |ts|
  {
    if ts == [] then [] else TransferWrites(index, ts[..|ts| - 1], nowSecs) + [WriteOf(index, ts[|ts| - 1], nowSecs)]
  }

  lemma {:induction false} TransferWritesAt(index: string, ts: seq<Doc>, nowSecs: int)
    requires forall i :: 0 <= i < |ts| ==> "file_id" in ts[i]
    ensures |TransferWrites(index, ts, nowSecs)| == |ts|
    ensures forall i :: 0 <= i < |ts| ==> TransferWrites(index, ts, nowSecs)[i] == WriteOf(index, ts[i], nowSecs)
    decreases |ts|
  {
    if ts != [] {
      var n := |ts| - 1;
      var init := ts[..n];
      assert forall i :: 0 <= i < n ==> init[i] == ts[i];
      TransferWritesAt(index, init, nowSecs);
      var w, last := TransferWrites(index, init, nowSecs), WriteOf(index, ts[n], nowSecs);
      var all := TransferWrites(index, ts, nowSecs);
      assert all == w + [last];
      SnocAt(w, last);
      forall i | 0 <= i < |ts| ensures all[i] == WriteOf(index, ts[i], nowSecs) {
        if i < n {
          assert init[i] == ts[i] && all[i] == w[i];
        } else {
          assert i == n && all[i] == last;
        }
      }
    }
  }

  /** The requests of every `es` database in order, when every transfer has a file id. */
  function AllWrites(indexes: seq<string>, ts: seq<Doc>, nowSecs: int): seq<Write>
    requires forall i :: 0 <= i < |ts| ==> "file_id" in ts[i]
    decreases |indexes|
  {
    if indexes == [] then []
    else AllWrites(indexes[..|indexes| - 1], ts, nowSecs) + TransferWrites(indexes[|indexes| - 1], ts, nowSecs)
  }

  /** The requests the run makes: a transfer without a file id stops the first `es` database there. */
  function Writes(indexes: seq<string>, ts: seq<Doc>, nowSecs: int): seq<Write>
  {
    var m := FirstWithout(ts, "file_id");
    if m == |ts| then AllWrites(indexes, ts, nowSecs)
    else if indexes == [] then []
    else TransferWrites(indexes[0], ts[..m], nowSecs)
  }

  /**
    With distinct file ids, an `es` index holds every transfer under its file id with its
    body afterwards, unless the store refuses that key.
   */
  lemma OneDocumentPerTransfer(docs: map<DocKey, Doc>, rejected: set<DocKey>, index: string, ts: seq<Doc>,
                               nowSecs: int)
    requires forall i :: 0 <= i < |ts| ==> "file_id" in ts[i]
    requires forall i, j :: 0 <= i < j < |ts| ==> Render(ts[i]["file_id"]) != Render(ts[j]["file_id"])
    ensures forall i :: 0 <= i < |ts| && DocKey(index, Render(ts[i]["file_id"])) !in rejected ==>
      var k := DocKey(index, Render(ts[i]["file_id"]));
      k in Apply(docs, rejected, TransferWrites(index, ts, nowSecs))
      && Apply(docs, rejected, TransferWrites(index, ts, nowSecs))[k] == Body(nowSecs, ts[i])
  {
    var ws := TransferWrites(index, ts, nowSecs);
    TransferWritesAt(index, ts, nowSecs);
    assert forall i :: 0 <= i < |ts| ==> WriteKey(ws[i]) == DocKey(index, Render(ts[i]["file_id"]));
    ApplyDistinct(docs, rejected, ws);
  }

  /** The transfer loop of one database; a transfer without a file id raises there. */
  method IndexTransfers(store: Store, index: string, ts: seq<Doc>, nowSecs: int) returns (ok: bool)
    modifies store
    ensures var m := FirstWithout(ts, "file_id");
      ok == (m == |ts|) && store.docs == Apply(old(store.docs), store.rejected, TransferWrites(index, ts[..m], nowSecs))
  {
    ghost var m := FirstWithout(ts, "file_id");
    ghost var done: seq<Write> := [];
    var i := 0;
    while i < |ts|
      invariant 0 <= i <= m
      invariant done == TransferWrites(index, ts[..i], nowSecs)
      invariant store.docs == Apply(old(store.docs), store.rejected, done)
    {
      if "file_id" !in ts[i] {
        assert i == m;
        return false;
      }
      var w := WriteOf(index, ts[i], nowSecs);
      TransferWritesSnoc(index, ts, i, nowSecs);
      ApplySnoc(old(store.docs), store.rejected, done, w);
      var _ := store.Index(index, w.id, w.body);
      done := done + [w];
      i := i + 1;
    }
    assert ts[..i] == ts;
    ok := true;
  }

  lemma TransferWritesSnoc(index: string, ts: seq<Doc>, i: nat, nowSecs: int)
    requires i < |ts| && forall j :: 0 <= j <= i ==> "file_id" in ts[j]
    ensures TransferWrites(index, ts[..i + 1], nowSecs) == TransferWrites(index, ts[..i], nowSecs) + [WriteOf(index, ts[i], nowSecs)]
  {
    assert ts[..i + 1][..i] == ts[..i];
  }

  /** The database loop. */
  method IndexAll(store: Store, dbs: seq<Database>, ts: seq<Doc>, nowSecs: int) returns (ok: bool)
    modifies store
    ensures ok == (EsIndexes(dbs) == [] || FirstWithout(ts, "file_id") == |ts|)
    ensures store.docs == Apply(old(store.docs), store.rejected, Writes(EsIndexes(dbs), ts, nowSecs))
  {
    ghost var m := FirstWithout(ts, "file_id");
    ghost var done: seq<Write> := [];
    var d := 0;
    while d < |dbs|
      invariant 0 <= d <= |dbs|
      invariant EsIndexes(dbs[..d]) != [] ==> m == |ts|
      invariant done == Writes(EsIndexes(dbs[..d]), ts, nowSecs)
      invariant store.docs == Apply(old(store.docs), store.rejected, done)
    {
      EsIndexesSnoc(dbs, d);
      if dbs[d].kind == "es" {
        ghost var before := store.docs;
        var indexed := IndexTransfers(store, dbs[d].index, ts, nowSecs);
        if !indexed {
          FirstEsIndex(dbs, d);
          assert done == [];
          return false;
        }
        assert ts[..m] == ts;
        AllWritesSnoc(EsIndexes(dbs[..d]), dbs[d].index, ts, nowSecs);
        ApplyConcat(old(store.docs), store.rejected, done, TransferWrites(dbs[d].index, ts, nowSecs));
        assert EsIndexes(dbs[..d + 1]) == EsIndexes(dbs[..d]) + [dbs[d].index];
        done := done + TransferWrites(dbs[d].index, ts, nowSecs);
      } else {
        assert EsIndexes(dbs[..d + 1]) == EsIndexes(dbs[..d]);
      }
      d := d + 1;
    }
    assert dbs[..d] == dbs;
    ok := true;
  }

  lemma AllWritesSnoc(indexes: seq<string>, index: string, ts: seq<Doc>, nowSecs: int)
    requires FirstWithout(ts, "file_id") == |ts|
    ensures Writes(indexes + [index], ts, nowSecs) == Writes(indexes, ts, nowSecs) + TransferWrites(index, ts, nowSecs)
  {
    assert (indexes + [index])[..|indexes|] == indexes;
  }

  lemma {:induction false} EsIndexesAppend(a: seq<Database>, b: seq<Database>)
    ensures EsIndexes(a + b) == EsIndexes(a) + EsIndexes(b)
    decreases |b|
  {
    if b == [] {
      assert a + b == a;
    } else {
      var n := |b| - 1;
      assert (a + b)[..|a + b| - 1] == a + b[..n];
      EsIndexesAppend(a, b[..n]);
    }
  }

  /** The first `es` database is the head of the `es` indexes. */
  lemma {:induction false} FirstEsIndex(dbs: seq<Database>, d: nat)
    requires d < |dbs| && dbs[d].kind == "es" && EsIndexes(dbs[..d]) == []
    ensures EsIndexes(dbs) != [] && EsIndexes(dbs)[0] == dbs[d].index
  {
    var a, b := dbs[..d + 1], dbs[d + 1..];
    EsIndexesSnoc(dbs, d);
    EmptyLeft([dbs[d].index]);
    EsIndexesAppend(a, b);
    TakeDrop(dbs, d + 1);
  }

  /**
    `run`: a missing argument returns False; a transfer without a file state raises before
    anything is written; otherwise every transfer is classified and, unless `databases` is
    None, indexed into each `es` database.
   */
  method Run(store: Store, a: Kwargs, ts: array<Doc>, nowSecs: int) returns (end: Ending)
    modifies store, ts
    ensures !Complete(a) ==> end == ReturnedFalse && store.docs == old(store.docs) && ts[..] == old(ts[..])
    ensures Complete(a) && FirstWithout(old(ts[..]), "file_state") < ts.Length ==>
      end == Raising && store.docs == old(store.docs)
    ensures Complete(a) && FirstWithout(old(ts[..]), "file_state") == ts.Length ==>
      (forall i :: 0 <= i < ts.Length ==> ts[i] == Classified(old(ts[i])))
      && match a.databases.value
         case None => end == Finished && store.docs == old(store.docs)
         case Some(dbs) =>
           store.docs == Apply(old(store.docs), store.rejected, Writes(EsIndexes(dbs), ts[..], nowSecs))
           && end == (if EsIndexes(dbs) == [] || FirstWithout(ts[..], "file_id") == ts.Length then Finished else Raising)
  {
    if !Complete(a) {
      return ReturnedFalse;
    }
    var classified := ClassifyAll(ts);
    if !classified {
      return Raising;
    }
    if a.databases.value.None? {
      return Finished;
    }
    var indexed := IndexAll(store, a.databases.value.value, ts[..], nowSecs);
    end := if indexed then Finished else Raising;
  }
}
