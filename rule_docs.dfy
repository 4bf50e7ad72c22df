/**
  What the three indexers (the package's `Rucio` class and the two older `ESRucio`
  and `ES` classes) have in common: the fields a rule document takes from its rule,
  the endpoint lookup, the replication-duration rule, and the effect of a series of
  document writes on the store.
 */
module RuleDocs {
  import opened Wrappers
  import opened Text
  import opened Values
  import opened EsStore
  import opened RucioWrappers
  import opened StateFlags

  /** `int(now.strftime("%s"))*1000`: a timestamp in milliseconds. */
  function Millis(nowSecs: int): int
  {
    nowSecs * 1000
  }

  const PushKeys: set<string> :=
    {"@timestamp", "rule_id", "scope", "name", "from_rse", "to_rse", "created_at",
     "updated_at", "expires_at", "state", "error"}

  /** The fields a pushed document takes from its rule. */
  function PushFields(r: Rule, nowSecs: int): (d: Doc)
    ensures d.Keys == PushKeys
    ensures d["rule_id"] == Str(r.id) && d["state"] == r.state
  {
    map["@timestamp" := Int(Millis(nowSecs)), "rule_id" := Str(r.id), "scope" := Str(r.scope),
        "name" := Str(r.name), "from_rse" := r.sourceReplicaExpression,
        "to_rse" := Str(r.rseExpression), "created_at" := r.createdAt,
        "updated_at" := r.updatedAt, "expires_at" := r.expiresAt, "state" := r.state,
        "error" := r.error]
  }

  const UpdateKeys: set<string> :=
    {"scope", "name", "to_rse", "updated_at", "expires_at", "state", "error"}

  /** The fields an update body takes from its rule. */
  function UpdateFields(r: Rule): (d: Doc)
    ensures d.Keys == UpdateKeys
  {
    map["scope" := Str(r.scope), "name" := Str(r.name), "to_rse" := Str(r.rseExpression),
        "updated_at" := r.updatedAt, "expires_at" := r.expiresAt, "state" := r.state,
        "error" := r.error]
  }

  const EndpointKeys: set<string> := {"endpoint", "protocol"}

  const ThroughputKeys: set<string> :=
    {"fts_throughput_mean", "fts_throughput_median", "fts_throughput_stdev"}

  /**
    `listFileReplicas(did, rse)[0]['rses'][rse][0]`, telling apart a missing RSE key
    (a `KeyError`) from the other ways the expression raises.
   */
  datatype Lookup = Found(pfn: string) | KeyMissing | Failed

  function PfnLookup(g: Grid, did: string, rse: Value): (l: Lookup)
    ensures l.Found? ==> rse.Str? && (exists d :: SplitDid(did) == Some(d) && (d, rse.s) in g.replicas)
    ensures l.KeyMissing? ==> (rse.Str? || rse.Null?) && SplitDid(did).Some?
  {
    match ListFileReplicas(g, did, rse)
    case Raised => Failed
    case Ok(replicas) =>
      if replicas == [] then Failed                      // replica[0]
      else if !rse.Str? || rse.s !in replicas[0] then KeyMissing   // ['rses'][rse]; no RSE is named None
      else if replicas[0][rse.s] == [] then Failed       // [0]
      else Found(replicas[0][rse.s][0])
  }

  /** The endpoint lookup of each rule of `did`, for the rule's destination RSE. */
  function RuleLookups(g: Grid, did: string, rules: seq<Rule>): (r: seq<Lookup>)
    ensures |r| == |rules|
  {
    seq(|rules|, i requires 0 <= i < |rules| => PfnLookup(g, did, Str(rules[i].rseExpression)))
  }

  /** `pfn.split(':')[0]`. */
  function Protocol(pfn: string): string
  {
    Split(pfn, ":")[0]
  }

  /** The protocol is the PFN's scheme: the longest prefix without ':'. */
  lemma ProtocolIsScheme(pfn: string)
    ensures Protocol(pfn) <= pfn && ':' !in Protocol(pfn)
    ensures |Protocol(pfn)| == |pfn| || pfn[|Protocol(pfn)|] == ':'
  {
    FindChar(pfn, ':');
    SplitHead(pfn, ":");
  }

  /** The `endpoint` and `protocol` fields; every failure leaves both None. */
  function EndpointOf(l: Lookup): (d: Doc)
    ensures d.Keys == EndpointKeys
  {
    if l.Found? then map["endpoint" := Str(l.pfn), "protocol" := Str(Protocol(l.pfn))]
    else map["endpoint" := Null, "protocol" := Null]
  }

  /**
    The `replication_duration` field: added when the rule is now OK and the stored
    document was REPLICATING, as the difference of the two `updated_at` times. Reading
    the stored state raises when there is no stored document (`_get` returned None)
    or it has no state; the subtraction raises unless both times are datetimes.
   */
  function DurationFields(full: Doc, stored: Option<Doc>): (r: Result<Doc>)
    ensures Get(full, "state") != Some(Str("OK")) ==> r == Ok(map[])
    ensures Get(full, "state") == Some(Str("OK")) && stored.None? ==> r.Raised?
    ensures r.Ok? ==> r.value.Keys <= {"replication_duration"}
    ensures r.Ok? && r.value != map[] <==>
      Get(full, "state") == Some(Str("OK")) && stored.Some?
      && Get(stored.value, "state") == Some(Str("REPLICATING"))
      && Get(full, "updated_at").Some? && Get(full, "updated_at").value.Time?
      && Get(stored.value, "updated_at").Some? && Get(stored.value, "updated_at").value.Time?
    ensures r.Ok? && r.value != map[] ==>
      r.value["replication_duration"]
        == Int(full["updated_at"].secs - stored.value["updated_at"].secs)
  {
    if Get(full, "state") != Some(Str("OK")) then Ok(map[])
    else if stored.None? || "state" !in stored.value then Raised
    else if stored.value["state"] != Str("REPLICATING") then Ok(map[])
    else match (Get(full, "updated_at"), Get(stored.value, "updated_at"))
      case (Some(Time(done)), Some(Time(started))) =>
        var m := map["replication_duration" := Int(done - started)];
        assert "replication_duration" in m;
        Ok(m)
      case _ => Raised
  }

  /**
    The body sent by `updateRuleWithDID`: the rule's fields overridden by the extra
    entries, then the duration, the throughput fields `tp`, the three progress flags
    and the endpoint found by `l` (the `UpdateLookup` of the merged fields). With `strict`, a failed lookup other than a missing RSE key
    raises instead of giving None.
   */
  function UpdateBody(rule: Rule, extra: Doc, stored: Option<Doc>, tp: Doc, l: Lookup, strict: bool): (r: Result<Doc>)
  {
    var full := UpdateFields(rule) + extra;
    match DurationFields(full, stored)
    case Raised => Raised
    case Ok(dur) =>
      if strict && l.Failed? then Raised
      else Ok(Assemble(full, dur, tp, l))
  }

  /** The endpoint lookup of an update: for the DID and RSE the merged fields name. */
  function UpdateLookup(g: Grid, full: Doc): Lookup
    requires UpdateKeys <= full.Keys
  {
    PfnLookup(g, Render(full["scope"]) + ":" + Render(full["name"]), full["to_rse"])
  }

  /**
    The update body from its parts: the fields added after the duration (throughput,
    flags, endpoint) override what comes before them.
   */
  function Assemble(full: Doc, dur: Doc, tp: Doc, l: Lookup): Doc
    requires "state" in full
  {
    full + dur + Later(full, tp, l)
  }

  function Later(full: Doc, tp: Doc, l: Lookup): Doc
    requires "state" in full
  {
    tp + Progress(Some(full["state"])) + EndpointOf(l)
  }

  lemma AssembleFacts(full: Doc, dur: Doc, tp: Doc, l: Lookup)
    requires "state" in full && dur.Keys <= {"replication_duration"} && tp.Keys <= ThroughputKeys
    ensures var b := Assemble(full, dur, tp, l);
      (forall k :: k in Later(full, tp, l) ==> k in b && b[k] == Later(full, tp, l)[k])
      && b["state"] == full["state"]
      && forall k :: k in ProgressFlags ==> (b[k] == Int(1) <==> b["state"] == Str(Marks(k)))
  {
    var rest := Later(full, tp, l);
    LaterFacts(full, tp, l);
    assert "state" !in dur;
    AssembleFlags(full, dur, rest);
  }

  lemma AssembleFlags(full: Doc, dur: Doc, rest: Doc)
    requires "state" in full && "state" !in dur && "state" !in rest
    requires forall k :: k in ProgressFlags ==> k in rest && rest[k] == Progress(Some(full["state"]))[k]
    ensures forall k :: k in ProgressFlags ==>
      ((full + dur + rest)[k] == Int(1) <==> (full + dur + rest)["state"] == Str(Marks(k)))
  {
  }

  lemma LaterFacts(full: Doc, tp: Doc, l: Lookup)
    requires "state" in full && tp.Keys <= ThroughputKeys
    ensures Later(full, tp, l).Keys == tp.Keys + ProgressFlags + EndpointKeys
    ensures "state" !in Later(full, tp, l) && "replication_duration" !in Later(full, tp, l)
    ensures forall k :: k in ProgressFlags ==> k in Later(full, tp, l) && Later(full, tp, l)[k] == Progress(Some(full["state"]))[k]
  {
    var p := Progress(Some(full["state"]));
    var e := EndpointOf(l);
    assert "state" !in tp && "replication_duration" !in tp;
    assert "state" !in EndpointKeys && "replication_duration" !in EndpointKeys;
    assert "state" !in ProgressFlags && "replication_duration" !in ProgressFlags;
    forall k | k in ProgressFlags ensures Later(full, tp, l)[k] == p[k] {
      assert k !in EndpointKeys;
    }
  }

  /** The update body's progress flags agree with its state, whatever the extra entries hold. */
  lemma UpdateFlagsFollowState(rule: Rule, extra: Doc, stored: Option<Doc>, tp: Doc, l: Lookup, strict: bool)
    requires tp.Keys <= ThroughputKeys
    requires UpdateBody(rule, extra, stored, tp, l, strict).Ok?
    ensures var b := UpdateBody(rule, extra, stored, tp, l, strict).value;
      ProgressFlags + EndpointKeys <= b.Keys && "state" in b
      && forall k :: k in ProgressFlags ==> (b[k] == Int(1) <==> b["state"] == Str(Marks(k)))
  {
    var full := UpdateFields(rule) + extra;
    var dur := DurationFields(full, stored).value;
    assert UpdateBody(rule, extra, stored, tp, l, strict) == Ok(Assemble(full, dur, tp, l));
    AssembleFacts(full, dur, tp, l);
  }

  /** The stored document is read only for a rule that is now OK. */
  lemma StoredUnread(rule: Rule, extra: Doc, s1: Option<Doc>, s2: Option<Doc>, tp: Doc, l: Lookup, strict: bool)
    requires (UpdateFields(rule) + extra)["state"] != Str("OK") || s1 == s2
    ensures UpdateBody(rule, extra, s1, tp, l, strict) == UpdateBody(rule, extra, s2, tp, l, strict)
  {
  }

  /**
    An update body is partial: it holds only the rule's update fields, the extra entries,
    the duration, the throughput fields, the three progress flags and the endpoint.
   */
  lemma BodyKeys(rule: Rule, extra: Doc, stored: Option<Doc>, tp: Doc, l: Lookup, strict: bool, b: Doc, k: string)
    requires tp.Keys <= ThroughputKeys
    requires UpdateBody(rule, extra, stored, tp, l, strict) == Ok(b) && k in b
    ensures k in UpdateKeys || k in extra || k == "replication_duration" || k in tp
      || k in ProgressFlags || k in EndpointKeys
  {
    var full := UpdateFields(rule) + extra;
    SentBody(rule, extra, stored, tp, l, strict);
    AssembleKeys(full, DurationFields(full, stored).value, tp, l, k);
  }

  lemma AssembleKeys(full: Doc, dur: Doc, tp: Doc, l: Lookup, k: string)
    requires "state" in full && tp.Keys <= ThroughputKeys
    requires dur.Keys <= {"replication_duration"} && k in Assemble(full, dur, tp, l)
    ensures k in full || k == "replication_duration" || k in tp || k in ProgressFlags || k in EndpointKeys
  {
    LaterFacts(full, tp, l);
  }

  /**
    The endpoint and protocol of a body are the PFN found and its scheme, or None when the
    lookup failed. A failed lookup blocks the update only under `strict`; otherwise
    only the duration rule can raise.
   */
  lemma BodyEndpoint(rule: Rule, extra: Doc, stored: Option<Doc>, tp: Doc, l: Lookup, strict: bool)
    requires tp.Keys <= ThroughputKeys
    ensures UpdateBody(rule, extra, stored, tp, l, strict).Raised?
      <==> DurationFields(UpdateFields(rule) + extra, stored).Raised? || (strict && l.Failed?)
    ensures UpdateBody(rule, extra, stored, tp, l, strict).Ok? ==>
      var b := UpdateBody(rule, extra, stored, tp, l, strict).value;
      EndpointKeys <= b.Keys
      && b["endpoint"] == (if l.Found? then Str(l.pfn) else Null)
      && b["protocol"] == (if l.Found? then Str(Protocol(l.pfn)) else Null)
  {
    if UpdateBody(rule, extra, stored, tp, l, strict).Ok? {
      var full := UpdateFields(rule) + extra;
      SentBody(rule, extra, stored, tp, l, strict);
      AssembleEndpoint(full, DurationFields(full, stored).value, tp, l);
    }
  }

  lemma AssembleEndpoint(full: Doc, dur: Doc, tp: Doc, l: Lookup)
    requires "state" in full && tp.Keys <= ThroughputKeys
    ensures var b := Assemble(full, dur, tp, l);
      EndpointKeys <= b.Keys
      && b["endpoint"] == (if l.Found? then Str(l.pfn) else Null)
      && b["protocol"] == (if l.Found? then Str(Protocol(l.pfn)) else Null)
  {
  }

  /** A throughput field the extra entries do not set comes from `tp`. */
  lemma BodyThroughput(rule: Rule, extra: Doc, stored: Option<Doc>, tp: Doc, l: Lookup, strict: bool, b: Doc, k: string)
    requires tp.Keys <= ThroughputKeys && k in ThroughputKeys && k !in extra
    requires UpdateBody(rule, extra, stored, tp, l, strict) == Ok(b) && k in b
    ensures k in tp
  {
    var full := UpdateFields(rule) + extra;
    SentBody(rule, extra, stored, tp, l, strict);
    ThroughputNotRuleField(rule, extra, k);
    AssembleThroughput(full, DurationFields(full, stored).value, tp, l, k);
  }

  lemma ThroughputNotRuleField(rule: Rule, extra: Doc, k: string)
    requires k in ThroughputKeys && k !in extra
    ensures k !in UpdateFields(rule) + extra
  {
  }

  lemma AssembleThroughput(full: Doc, dur: Doc, tp: Doc, l: Lookup, k: string)
    requires "state" in full && tp.Keys <= ThroughputKeys && k in ThroughputKeys
    requires k !in full && dur.Keys <= {"replication_duration"} && k in Assemble(full, dur, tp, l)
    ensures k in tp
  {
    LaterFacts(full, tp, l);
    assert k !in ProgressFlags && k !in EndpointKeys;
  }

  /**
    Running the same update again against the document the first one produced sends a
    body that changes nothing: the second run sees the new state, so it adds no second
    duration, and everything else it sends is what the first run sent.
   */
  lemma UpdateTwice(rule: Rule, extra: Doc, s: Doc, tp: Doc, l: Lookup, strict: bool, b: Doc)
    requires tp.Keys <= ThroughputKeys && "replication_duration" !in extra
    requires UpdateBody(rule, extra, Some(s), tp, l, strict) == Ok(b)
    ensures var again := UpdateBody(rule, extra, Some(s + b), tp, l, strict);
      again.Ok? && (s + b) + again.value == s + b
  {
    var full := UpdateFields(rule) + extra;
    SentBody(rule, extra, Some(s), tp, l, strict);
    var dur := DurationFields(full, Some(s)).value;
    SecondRunNoDuration(full, s, dur, tp, l);
    BodyOf(rule, extra, Some(s + b), tp, l, strict, map[]);
    NoDurationKey(rule, extra);
    ReapplyAbsorbs(full, s, dur, tp, l);
  }

  lemma NoDurationKey(rule: Rule, extra: Doc)
    requires "replication_duration" !in extra
    ensures "replication_duration" !in UpdateFields(rule) + extra
  {
  }

  lemma ReapplyAbsorbs(full: Doc, s: Doc, dur: Doc, tp: Doc, l: Lookup)
    requires "state" in full && "replication_duration" !in full
    requires dur.Keys <= {"replication_duration"} && tp.Keys <= ThroughputKeys
    ensures (s + Assemble(full, dur, tp, l)) + Assemble(full, map[], tp, l) == s + Assemble(full, dur, tp, l)
  {
    AssembleDuration(full, dur, tp, l);
    MergeAbsorb(s, Assemble(full, dur, tp, l), Assemble(full, map[], tp, l));
  }

  /** An update body is assembled from the duration the rule gives, unless the lookup raises. */
  lemma BodyOf(rule: Rule, extra: Doc, stored: Option<Doc>, tp: Doc, l: Lookup, strict: bool, dur: Doc)
    requires DurationFields(UpdateFields(rule) + extra, stored) == Ok(dur)
    requires !(strict && l.Failed?)
    ensures UpdateBody(rule, extra, stored, tp, l, strict)
      == Ok(Assemble(UpdateFields(rule) + extra, dur, tp, l))
  {
  }

  /** A body that is sent had its duration computed and its lookup not raise. */
  lemma SentBody(rule: Rule, extra: Doc, stored: Option<Doc>, tp: Doc, l: Lookup, strict: bool)
    requires UpdateBody(rule, extra, stored, tp, l, strict).Ok?
    ensures DurationFields(UpdateFields(rule) + extra, stored).Ok?
    ensures !(strict && l.Failed?)
    ensures UpdateBody(rule, extra, stored, tp, l, strict).value
      == Assemble(UpdateFields(rule) + extra, DurationFields(UpdateFields(rule) + extra, stored).value,
                  tp, l)
  {
  }

  /** Against a document holding the first body, the duration rule adds nothing. */
  lemma SecondRunNoDuration(full: Doc, s: Doc, dur: Doc, tp: Doc, l: Lookup)
    requires "state" in full && dur.Keys <= {"replication_duration"} && tp.Keys <= ThroughputKeys
    ensures DurationFields(full, Some(s + Assemble(full, dur, tp, l))) == Ok(map[])
  {
    var b := Assemble(full, dur, tp, l);
    AssembleFacts(full, dur, tp, l);
    assert Get(s + b, "state") == Some(full["state"]);
  }

  /** Apart from the duration field, the two bodies agree. */
  lemma AssembleDuration(full: Doc, dur: Doc, tp: Doc, l: Lookup)
    requires "state" in full && "replication_duration" !in full
    requires dur.Keys <= {"replication_duration"} && tp.Keys <= ThroughputKeys
    ensures forall k :: k in Assemble(full, map[], tp, l) ==>
      k in Assemble(full, dur, tp, l) && Assemble(full, dur, tp, l)[k] == Assemble(full, map[], tp, l)[k]
  {
    var rest := Later(full, tp, l);
    assert "replication_duration" !in rest by { LaterFacts(full, tp, l); }
    forall k | k in full + map[] + rest
      ensures k in full + dur + rest && (full + dur + rest)[k] == (full + map[] + rest)[k]
    {
      if k !in rest {
        assert k in full;
        assert k !in dur;
      }
    }
  }

  /** Merging in again fields the last merge already brought leaves the document as it is. */
  lemma MergeAbsorb(s: Doc, b: Doc, b2: Doc)
    requires forall k :: k in b2 ==> k in b && b[k] == b2[k]
    ensures (s + b) + b2 == s + b
  {
  }

  // ---------------------------------------------------------------- writing documents

  /** The store key of a document about to be indexed: `fullEntry['rule_id']`, None when absent. */
  function KeyOf(index: string, e: Doc): Option<DocKey>
  {
    if "rule_id" in e then Some(DocKey(index, Render(e["rule_id"]))) else None
  }

  /** One `_index` call whose failures (a missing `rule_id`, a rejected write) are caught. */
  function IndexOne(docs: map<DocKey, Doc>, rejected: set<DocKey>, index: string, e: Doc): map<DocKey, Doc>
  {
    match KeyOf(index, e)
    case None => docs
    case Some(k) => if k in rejected then docs else docs[k := e]
  }

  /** The documents after indexing `entries` in order. */
  function IndexAll(docs: map<DocKey, Doc>, rejected: set<DocKey>, index: string, entries: seq<Doc>): map<DocKey, Doc>
    decreases |entries|
  {
    if entries == [] then docs
    else IndexAll(IndexOne(docs, rejected, index, entries[0]), rejected, index, entries[1..])
  }

  /** Indexing a suffix is indexing its first entry, then the rest. */
  lemma IndexAllStep(docs: map<DocKey, Doc>, rejected: set<DocKey>, index: string, entries: seq<Doc>, i: nat)
    requires i < |entries|
    ensures IndexAll(docs, rejected, index, entries[i..])
      == IndexAll(IndexOne(docs, rejected, index, entries[i]), rejected, index, entries[i + 1..])
  {
    assert entries[i..][0] == entries[i] && entries[i..][1..] == entries[i + 1..];
  }

  /** One `_index` call under the entry's rule id, skipped when the entry has none. */
  method IndexDoc(store: Store, index: string, e: Doc)
    modifies store
    ensures store.docs == IndexOne(old(store.docs), store.rejected, index, e)
  {
    if "rule_id" in e {
      var _ := store.Index(index, Render(e["rule_id"]), e);
    }
  }

  /** A key no entry is written under keeps its old document, or its absence. */
  lemma {:induction false} IndexAllFrame(docs: map<DocKey, Doc>, rejected: set<DocKey>, index: string, entries: seq<Doc>, k: DocKey)
    requires forall i :: 0 <= i < |entries| ==> KeyOf(index, entries[i]) != Some(k)
    ensures var r := IndexAll(docs, rejected, index, entries);
      (k in r <==> k in docs) && (k in docs ==> r[k] == docs[k])
    decreases |entries|
  {
    if entries != [] {
      IndexAllFrame(IndexOne(docs, rejected, index, entries[0]), rejected, index, entries[1..], k);
    }
  }

  /** The last entry written under an accepted key is the document stored there. */
  lemma {:induction false} IndexAllLastWins(docs: map<DocKey, Doc>, rejected: set<DocKey>, index: string, entries: seq<Doc>, i: nat)
    requires i < |entries| && KeyOf(index, entries[i]).Some? && KeyOf(index, entries[i]).value !in rejected
    requires forall j :: i < j < |entries| ==> KeyOf(index, entries[j]) != KeyOf(index, entries[i])
    ensures var k := KeyOf(index, entries[i]).value;
      k in IndexAll(docs, rejected, index, entries) && IndexAll(docs, rejected, index, entries)[k] == entries[i]
    decreases |entries|
  {
    var next := IndexOne(docs, rejected, index, entries[0]);
    if i == 0 {
      IndexAllFrame(next, rejected, index, entries[1..], KeyOf(index, entries[0]).value);
    } else {
      IndexAllLastWins(next, rejected, index, entries[1..], i - 1);
    }
  }

  /** What `Store.Get` returns for key `k`. */
  function StoredAt(docs: map<DocKey, Doc>, rejected: set<DocKey>, k: DocKey): Option<Doc>
  {
    if k in docs && k !in rejected then Some(docs[k]) else None
  }

  /** The documents after `Store.Update(k, body)`: merged in when the update is accepted. */
  function Updated(docs: map<DocKey, Doc>, rejected: set<DocKey>, k: DocKey, body: Doc): map<DocKey, Doc>
  {
    if k in docs && k !in rejected then Merged(docs, k, body) else docs
  }

  /** An update never adds or removes a document, and touches no key but its own. */
  lemma UpdatedFrame(docs: map<DocKey, Doc>, rejected: set<DocKey>, k: DocKey, body: Doc, other: DocKey)
    ensures Updated(docs, rejected, k, body).Keys == docs.Keys
    ensures other != k && other in docs ==> Updated(docs, rejected, k, body)[other] == docs[other]
  {
  }
}
