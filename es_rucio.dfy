/**
  The package's Elasticsearch indexer for replication rules (`common.es.rucio.Rucio`):
  one document per rule of a DID, and updates of a rule's document as its state
  moves on, with the replication duration, the FTS throughput and the endpoint.
 */
module EsRucio {
  import opened Wrappers
  import opened Seqs
  import opened Values
  import opened EsStore
  import opened RucioWrappers
  import opened StateFlags
  import opened RuleDocs

  // ---------------------------------------------------------------- pushRulesForDID

  /** The document for one rule, before the base entry is merged in; `l` is its endpoint lookup. */
  function RuleEntry(r: Rule, nowSecs: int, l: Lookup): Doc
  {
    PushFields(r, nowSecs) + EndpointOf(l) + map["fts_throughput" := Null]
  }

  /** The document pushed for a DID without rules: a timestamp and a made-up rule id. */
  function Placeholder(nowSecs: int, freshId: string): Doc
  {
    map["@timestamp" := Int(Millis(nowSecs)), "rule_id" := Str(freshId)]
  }

  /** One entry per rule, or the placeholder when there are none. */
  function BuildEntries(rules: seq<Rule>, lookups: seq<Lookup>, nowSecs: int, freshId: string): seq<Doc>
    requires |lookups| == |rules|
  {
    if |rules| > 0 then seq(|rules|, i requires 0 <= i < |rules| => RuleEntry(rules[i], nowSecs, lookups[i]))
    else [Placeholder(nowSecs, freshId)]
  }

  /**
    The entries built for `did` (None stands for no DID, which has no rules). Listing
    the rules of a DID without ':' raises, and nothing catches it.
   */
  function Entries(g: Grid, did: Option<string>, nowSecs: int, freshId: string): (r: Result<seq<Doc>>)
    ensures r.Raised? <==> did.Some? && ':' !in did.value
  {
    if did.None? then Ok(BuildEntries([], [], nowSecs, freshId))
    else match ListReplicationRules(g, did.value)
      case Raised => Raised
      case Ok(rules) => Ok(BuildEntries(rules, RuleLookups(g, did.value, rules), nowSecs, freshId))
  }

  /** `{**entry, **baseEntry}` with the five state flags set from its state, if any. */
  function FullEntry(e: Doc, base: Doc): Doc
  {
    (e + base) + Pushed(Get(e + base, "state"))
  }

  function FullEntries(es: seq<Doc>, base: Doc): (r: seq<Doc>)
    ensures |r| == |es|
  {
    seq(|es|, i requires 0 <= i < |es| => FullEntry(es[i], base))
  }

  lemma FullEntriesAt(es: seq<Doc>, base: Doc, i: nat)
    requires i < |es|
    ensures FullEntries(es, base)[i] == FullEntry(es[i], base)
  {
  }

  /** The documents `pushRulesForDID` submits. */
  function PushedDocs(g: Grid, did: Option<string>, base: Doc, nowSecs: int, freshId: string): Result<seq<Doc>>
  {
    match Entries(g, did, nowSecs, freshId)
    case Raised => Raised
    case Ok(es) => Ok(FullEntries(es, base))
  }

  /**
    A submitted document: its flags say whether its state is the one each marks, the
    base entry's fields win over the rule's (flags aside), and the rule's other
    fields are kept.
   */
  lemma FullEntryFields(e: Doc, base: Doc)
    ensures var d := FullEntry(e, base);
      (forall k :: k in PushFlags ==> k in d && (d[k] == Int(1) <==> Get(d, "state") == Some(Str(Marks(k)))))
      && (forall k :: k in base && k !in PushFlags ==> k in d && d[k] == base[k])
      && (forall k :: k in e && k !in base && k !in PushFlags ==> k in d && d[k] == e[k])
  {
    var m := e + base;
    assert "state" !in PushFlags;
    assert Get(FullEntry(e, base), "state") == Get(m, "state");
  }

  /** The id a submitted document is stored under: the base entry's, or else the entry's own. */
  lemma FullEntryKey(e: Doc, base: Doc, index: string)
    requires "rule_id" in e
    ensures KeyOf(index, FullEntry(e, base))
      == Some(DocKey(index, Render(if "rule_id" in base then base["rule_id"] else e["rule_id"])))
  {
    assert "rule_id" !in PushFlags;
  }

  lemma RuleEntryId(r: Rule, nowSecs: int, l: Lookup)
    ensures "rule_id" in RuleEntry(r, nowSecs, l) && RuleEntry(r, nowSecs, l)["rule_id"] == Str(r.id)
  {
    var p := PushFields(r, nowSecs);
    var e := EndpointOf(l);
    assert "rule_id" !in e;
    assert (p + e)["rule_id"] == Str(r.id);
  }

  /**
    One document per rule when there are rules, each carrying its rule's id unless the
    base entry sets one; otherwise exactly one document, under a made-up id.
   */
  lemma PushShape(rules: seq<Rule>, lookups: seq<Lookup>, base: Doc, nowSecs: int, freshId: string, index: string)
    requires |lookups| == |rules|
    ensures var docs := FullEntries(BuildEntries(rules, lookups, nowSecs, freshId), base);
      |docs| == (if rules == [] then 1 else |rules|)
      && (forall i :: 0 <= i < |rules| ==> KeyOf(index, docs[i]) == Some(DocKey(index,
            if "rule_id" in base then Render(base["rule_id"]) else rules[i].id)))
      && (rules == [] ==> KeyOf(index, docs[0]) == Some(DocKey(index,
            if "rule_id" in base then Render(base["rule_id"]) else freshId)))
  {
    var es := BuildEntries(rules, lookups, nowSecs, freshId);
    var docs := FullEntries(es, base);
    if rules == [] {
      assert es[0] == Placeholder(nowSecs, freshId);
      FullEntryKey(es[0], base, index);
    } else {
      forall i | 0 <= i < |rules|
        ensures KeyOf(index, docs[i]) == Some(DocKey(index, if "rule_id" in base then Render(base["rule_id"]) else rules[i].id))
      {
        assert es[i] == RuleEntry(rules[i], nowSecs, lookups[i]);
        RuleEntryId(rules[i], nowSecs, lookups[i]);
        FullEntryKey(es[i], base, index);
      }
    }
  }

  /** `pushRulesForDID`: builds the entries, then indexes each, skipping failed writes. */
  method PushRulesForDID(store: Store, g: Grid, did: Option<string>, index: string, base: Doc,
                         nowSecs: int, freshId: string) returns (r: Result<seq<Doc>>)
    modifies store
    ensures r == PushedDocs(g, did, base, nowSecs, freshId)
    ensures store.docs == if r.Ok? then IndexAll(old(store.docs), store.rejected, index, r.value) else old(store.docs)
  {
    var entries := BuildEntries([], [], nowSecs, freshId);
    if did.Some? {
      var listed := ListReplicationRules(g, did.value);
      if listed.Raised? {
        return Raised;
      }
      entries := CollectEntries(g, did.value, listed.value, nowSecs, freshId);
    }
    r := IndexEntries(store, index, entries, base);
  }

  /** The loop over the rules building their entries, with one endpoint lookup each. */
  method CollectEntries(g: Grid, did: string, rules: seq<Rule>, nowSecs: int, freshId: string) returns (entries: seq<Doc>)
    ensures entries == BuildEntries(rules, RuleLookups(g, did, rules), nowSecs, freshId)
  {
    ghost var lookups := RuleLookups(g, did, rules);
    if |rules| == 0 {
      return [Placeholder(nowSecs, freshId)];
    }
    entries := [];
    var i := 0;
    while i < |rules|
      invariant i <= |rules| && |entries| == i
      invariant forall j :: 0 <= j < i ==> entries[j] == RuleEntry(rules[j], nowSecs, lookups[j])
    {
      var l := PfnLookup(g, did, Str(rules[i].rseExpression));
      assert l == lookups[i];
      entries := entries + [RuleEntry(rules[i], nowSecs, l)];
      i := i + 1;
    }
  }

  /** The loop merging the base entry into each entry and indexing it under its rule id. */
  method IndexEntries(store: Store, index: string, entries: seq<Doc>, base: Doc) returns (r: Result<seq<Doc>>)
    modifies store
    ensures r == Ok(FullEntries(entries, base))
    ensures store.docs == IndexAll(old(store.docs), store.rejected, index, FullEntries(entries, base))
  {
    ghost var all := FullEntries(entries, base);
    var pushed: seq<Doc> := [];
    var i := 0;
    while i < |entries|
      invariant i <= |entries| && pushed == all[..i]
      invariant IndexAll(store.docs, store.rejected, index, all[i..]) == IndexAll(old(store.docs), store.rejected, index, all)
    {
      var full := IndexEntry(store, index, entries, base, i);
      TakeSnoc(all, i);
      pushed := pushed + [full];
      i := i + 1;
    }
    assert all[..i] == all;
    r := Ok(pushed);
  }

  /** One pass of the loop body: the `i`-th entry, completed and indexed. */
  method IndexEntry(store: Store, index: string, entries: seq<Doc>, base: Doc, i: nat) returns (full: Doc)
    requires i < |entries|
    modifies store
    ensures full == FullEntries(entries, base)[i]
    ensures IndexAll(store.docs, store.rejected, index, FullEntries(entries, base)[i + 1..])
      == IndexAll(old(store.docs), store.rejected, index, FullEntries(entries, base)[i..])
  {
    full := FullEntry(entries[i], base);
    FullEntriesAt(entries, base, i);
    IndexAllStep(store.docs, store.rejected, index, FullEntries(entries, base), i);
    IndexDoc(store, index, full);
  }

  // ---------------------------------------------------------------- container expansion

  /** Every DID some collection lists as its content. */
  function Members(g: Grid): set<Did>
  {
    set p, d | p in g.contents && d in g.contents[p] :: d
  }

  predicate Distinct(ds: seq<Did>)
  {
    forall i, j :: 0 <= i < j < |ds| ==> ds[i] != ds[j]
  }

  lemma DistinctCons(d: Did, rest: seq<Did>)
    requires Distinct(rest) && d !in rest
    ensures Distinct([d] + rest)
  {
    var r := [d] + rest;
    forall i, j | 0 <= i < j < |r| ensures r[i] != r[j] {
      assert r[j] == rest[j - 1];
      if i > 0 {
        assert r[i] == rest[i - 1];
      }
    }
  }

  /** The DIDs of `kids` not in `seen`, each once, in the order they first appear. */
  function Unseen(kids: seq<Did>, seen: seq<Did>): (r: seq<Did>)
    ensures forall d :: d in r ==> d in kids && d !in seen
    ensures forall d :: d in kids ==> d in seen || d in r
    ensures Distinct(r)
    decreases |kids|
  {
    if kids == [] then []
    else if kids[0] in seen then Unseen(kids[1..], seen)
    else
      var rest := Unseen(kids[1..], seen + [kids[0]]);
      DistinctCons(kids[0], rest);
      [kids[0]] + rest
  }

  /**
    Breadth-first listing: `found` holds every DID found so far, `queue` those whose
    content is still to be listed. A DID is listed at most once, so this stops on
    any catalogue.
   */
  function Bfs(g: Grid, queue: seq<Did>, found: seq<Did>): Result<seq<Did>>
    requires forall d :: d in found ==> d in Members(g)
    decreases Members(g) - (set d | d in found), |queue|
  {
    if queue == [] then Ok(found)
    else match ListContent(g, queue[0])
      case Raised => Raised
      case Ok(kids) =>
        var added := Unseen(kids, found);
        assert forall d :: d in added ==> d in Members(g) by {
          forall d | d in added ensures d in Members(g) {
            assert queue[0] in g.contents && d in g.contents[queue[0]];
          }
        }
        assert added != [] ==> added[0] in Members(g) - (set d | d in found);
        assert added == [] ==> found + added == found;
        Bfs(g, queue[1..] + added, found + added)
  }

  /** All DIDs under a collection, each once: the expansion the update means to make. */
  function Expand(g: Grid, root: Did): Result<seq<Did>>
    requires root in g.contents
  {
    var first := Unseen(g.contents[root], []);
    assert forall d :: d in first ==> d in Members(g) by {
      forall d | d in first ensures d in Members(g) {
        assert root in g.contents && d in g.contents[root];
      }
    }
    Bfs(g, first, first)
  }

  /** The queue is the tail of the output whose content is not yet listed; the rest is closed. */
  ghost predicate BfsInv(g: Grid, queue: seq<Did>, found: seq<Did>)
  {
    |queue| <= |found| && queue == found[|found| - |queue|..] && Distinct(found)
    && forall i :: 0 <= i < |found| - |queue| ==>
         found[i] in g.contents && forall c :: c in g.contents[found[i]] ==> c in found
  }

  lemma {:induction false} BfsClosed(g: Grid, queue: seq<Did>, found: seq<Did>)
    requires forall d :: d in found ==> d in Members(g)
    requires BfsInv(g, queue, found)
    ensures Bfs(g, queue, found).Ok? ==>
      var r := Bfs(g, queue, found).value;
      found <= r && Distinct(r)
      && forall d :: d in r ==> d in g.contents && forall c :: c in g.contents[d] ==> c in r
    decreases Members(g) - (set d | d in found), |queue|
  {
    if queue == [] {
      forall d | d in found ensures d in g.contents && forall c :: c in g.contents[d] ==> c in found {
        var i :| 0 <= i < |found| && found[i] == d;
      }
    } else if ListContent(g, queue[0]).Ok? {
      var kids := g.contents[queue[0]];
      var added := Unseen(kids, found);
      var n := |found| - |queue|;
      var grown, rest := found + added, queue[1..] + added;
      assert forall d :: d in added ==> d in Members(g) by {
        forall d | d in added ensures d in Members(g) {
          assert queue[0] in g.contents && d in g.contents[queue[0]];
        }
      }
      assert added != [] ==> added[0] in Members(g) - (set d | d in found);
      assert added == [] ==> grown == found;
      assert queue[0] == found[n];
      assert BfsInv(g, rest, grown) by {
        assert grown[|grown| - |rest|..] == found[n + 1..] + added;
        assert queue[1..] == found[n + 1..];
        forall i, j | 0 <= i < j < |grown| ensures grown[i] != grown[j] {
          if j >= |found| && i < |found| {
            assert grown[j] in added && grown[i] in found;
          } else if i >= |found| {
            assert grown[i] == added[i - |found|] && grown[j] == added[j - |found|];
          }
        }
        forall i | 0 <= i < |grown| - |rest|
          ensures grown[i] in g.contents && forall c :: c in g.contents[grown[i]] ==> c in grown
        {
          if i < n {
            assert grown[i] == found[i];
          } else {
            assert grown[i] == queue[0];
          }
        }
      }
      BfsClosed(g, rest, grown);
    }
  }

  /**
    The expansion, when every listing succeeds, holds each DID once, starts with the
    collection's own content, and is closed: the content of every DID in it is in it.
   */
  lemma ExpandClosed(g: Grid, root: Did)
    requires root in g.contents
    ensures Expand(g, root).Ok? ==>
      var r := Expand(g, root).value;
      Distinct(r) && (forall c :: c in g.contents[root] ==> c in r)
      && forall d :: d in r ==> d in g.contents && forall c :: c in g.contents[d] ==> c in r
  {
    var first := Unseen(g.contents[root], []);
    assert forall d :: d in first ==> d in Members(g) by {
      forall d | d in first ensures d in Members(g) {
        assert root in g.contents && d in g.contents[root];
      }
    }
    assert first[|first| - |first|..] == first;
    BfsClosed(g, first, first);
  }

  /** The outcome of the expansion loop as written. */
  datatype Expansion = Expanded(dids: seq<Did>) | ListingRaised | StillExpanding

  /** Every top-level DID is a file: listed, with no content. */
  predicate AllFiles(g: Grid, top: seq<Did>)
  {
    forall i :: 0 <= i < |top| ==> top[i] in g.contents && g.contents[top[i]] == []
  }

  /**
    The container expansion as written, run for at most `passes` passes: each pass
    lists the content of every DID found so far, including those already expanded,
    and appends it; the loop ends when a pass adds nothing. As soon as one top-level
    DID has content, every pass adds it again, so the loop never ends.
   */
  method ExpandAsWritten(g: Grid, top: seq<Did>, passes: nat) returns (r: Expansion)
    requires top != []
    ensures (exists i :: 0 <= i < |top| && top[i] in g.contents && g.contents[top[i]] != []) ==> !r.Expanded?
    ensures AllFiles(g, top) && passes >= 1 ==> r == Expanded(top)
  {
    var dids := top;
    var pass := 0;
    while pass < passes
      invariant top <= dids
      invariant AllFiles(g, top) ==> dids == top && pass == 0
    {
      var start := |dids|;
      var snapshot := dids;
      var j := 0;
      while j < |snapshot|
        invariant j <= |snapshot| && start == |snapshot| && snapshot <= dids
        invariant (exists i :: 0 <= i < j && snapshot[i] in g.contents && g.contents[snapshot[i]] != []) ==> |dids| > start
        invariant AllFiles(g, top) ==> snapshot == top && dids == top
      {
        var listed := ListContent(g, snapshot[j]);
        if listed.Raised? {
          return ListingRaised;
        }
        if listed.value != [] {
          dids := dids + listed.value;
        }
        j := j + 1;
      }
      if start == |dids| {
        assert top <= snapshot;
        return Expanded(dids);
      }
      pass := pass + 1;
    }
    return StillExpanding;
  }

  // ---------------------------------------------------------------- FTS throughput

  /** The FTS request for a job's files: `context.get("/jobs/" + id + "/files")`. */
  function JobFilesUrl(endpoint: string, jobId: string): string
  {
    endpoint + "/jobs/" + jobId + "/files"
  }

  /**
    The throughputs of one DID's transfer: its request's external id names the FTS job.
    A missing request, a non-string id or a failed FTS query contributes nothing.
   */
  function JobThroughputs(g: Grid, fts: map<string, seq<int>>, endpoint: string, d: Did, rse: string): seq<int>
  {
    match RequestExternalId(g, DidString(d), Str(rse))
    case Raised => []
    case Ok(id) =>
      if id.Str? && JobFilesUrl(endpoint, id.s) in fts then fts[JobFilesUrl(endpoint, id.s)] else []
  }

  /** The throughputs of each DID of the list, in order. */
  function PerDid(g: Grid, fts: map<string, seq<int>>, endpoint: string, dids: seq<Did>, rse: string): (r: seq<seq<int>>)
    ensures |r| == |dids|
  {
    seq(|dids|, i requires 0 <= i < |dids| => JobThroughputs(g, fts, endpoint, dids[i], rse))
  }

  /** `throughputs = throughputs + [...]` over the DIDs, in order. */
  function Flatten(xss: seq<seq<int>>): seq<int>
    decreases |xss|
  {
    if xss == [] then [] else Flatten(xss[..|xss| - 1]) + xss[|xss| - 1]
  }

  /** A sample is collected exactly when it is among some DID's transfer throughputs. */
  lemma {:induction false} FlattenMembers(xss: seq<seq<int>>, x: int)
    ensures x in Flatten(xss) <==> exists i :: 0 <= i < |xss| && x in xss[i]
    decreases |xss|
  {
    if xss != [] {
      var init := xss[..|xss| - 1];
      FlattenMembers(init, x);
      if x in Flatten(xss) && x !in xss[|xss| - 1] {
        var i :| 0 <= i < |init| && x in init[i];
        assert x in xss[i];
      }
      if exists i :: 0 <= i < |xss| && x in xss[i] {
        var i :| 0 <= i < |xss| && x in xss[i];
        if i < |init| {
          assert x in init[i];
        }
      }
    }
  }

  /** The per-DID loop collecting throughputs; a failure for one DID is logged and skipped. */
  method GatherThroughputs(g: Grid, fts: map<string, seq<int>>, endpoint: string, dids: seq<Did>, rse: string)
    returns (xs: seq<int>)
    ensures xs == Flatten(PerDid(g, fts, endpoint, dids, rse))
  {
    ghost var per := PerDid(g, fts, endpoint, dids, rse);
    xs := [];
    var i := 0;
    while i < |dids|
      invariant i <= |dids| && xs == Flatten(per[..i])
    {
      assert per[..i + 1][..i] == per[..i];
      xs := xs + JobThroughputs(g, fts, endpoint, dids[i], rse);
      i := i + 1;
    }
    assert per[..i] == per;
  }

  /**
    The throughput fields for a rule that is now OK: the mean, median and standard
    deviation over the transfers of the rule's DID (each file of a collection, found by
    the once-per-DID expansion rather than the loop as written). Any failure on the way
    leaves them absent.
   */
  function ThroughputFields(g: Grid, fts: map<string, seq<int>>, endpoint: string, rule: Rule): (d: Doc)
    ensures d.Keys <= ThroughputKeys
  {
    var root := Did(rule.scope, rule.name);
    match ListContent(g, root)
    case Raised => map[]
    case Ok(kids) =>
      match (if kids == [] then Ok([root]) else Expand(g, root))
      case Raised => map[]
      case Ok(dids) =>
        var xs := Flatten(PerDid(g, fts, endpoint, dids, rule.rseExpression));
        if xs == [] then map[]
        else map["fts_throughput_mean" := Samples(xs), "fts_throughput_median" := Samples(xs),
                 "fts_throughput_stdev" := Samples(xs)]
  }

  /** The throughput block of `updateRuleWithDID`: list, expand, gather, summarise. */
  method ComputeThroughput(g: Grid, fts: map<string, seq<int>>, endpoint: string, rule: Rule) returns (tp: Doc)
    ensures tp == ThroughputFields(g, fts, endpoint, rule)
  {
    tp := map[];
    var root := Did(rule.scope, rule.name);
    var listed := ListContent(g, root);
    if listed.Ok? {
      var dids := if listed.value == [] then Ok([root]) else Expand(g, root);
      if dids.Ok? {
        var xs := GatherThroughputs(g, fts, endpoint, dids.value, rule.rseExpression);
        if xs != [] {
          tp := map["fts_throughput_mean" := Samples(xs), "fts_throughput_median" := Samples(xs),
                    "fts_throughput_stdev" := Samples(xs)];
        }
      }
    }
  }

  // ---------------------------------------------------------------- updateRuleWithDID

  /** The throughput fields, asked for only when the rule is OK and an FTS endpoint is given. */
  function UpdateThroughput(g: Grid, fts: map<string, seq<int>>, endpoint: string, rule: Rule, extra: Doc): (d: Doc)
    ensures d.Keys <= ThroughputKeys
    ensures d != map[] ==> (UpdateFields(rule) + extra)["state"] == Str("OK") && endpoint != ""
  {
    var full := UpdateFields(rule) + extra;
    if full["state"] == Str("OK") && endpoint != "" then ThroughputFields(g, fts, endpoint, rule) else map[]
  }

  /**
    What `updateRuleWithDID` does: Ok(None) when the rule cannot be read (skipped),
    Ok(Some(body)) when it sends `body`, Raised when the duration rule raises.
   */
  function UpdateOutcome(g: Grid, fts: map<string, seq<int>>, ruleID: Value, endpoint: string, extra: Doc,
                         stored: Option<Doc>): (r: Result<Option<Doc>>)
    ensures RuleInfo(g, ruleID).Raised? ==> r == Ok(None)
    ensures r == Ok(None) ==> RuleInfo(g, ruleID).Raised?
    ensures (RuleInfo(g, ruleID).Ok? && stored.None?
             && (UpdateFields(RuleInfo(g, ruleID).value) + extra)["state"] == Str("OK")) ==> r.Raised?
  {
    match RuleInfo(g, ruleID)
    case Raised => Ok(None)
    case Ok(rule) =>
      var full := UpdateFields(rule) + extra;
      var tp := UpdateThroughput(g, fts, endpoint, rule, extra);
      match UpdateBody(rule, extra, stored, tp, UpdateLookup(g, full), false)
      case Raised => Raised
      case Ok(b) => Ok(Some(b))
  }

  /** The throughput fields appear only for a rule that is OK, with an FTS endpoint given. */
  lemma ThroughputOnlyWhenDone(g: Grid, fts: map<string, seq<int>>, ruleID: Value, endpoint: string, extra: Doc,
                               stored: Option<Doc>, rule: Rule, b: Doc, k: string)
    requires RuleInfo(g, ruleID) == Ok(rule)
    requires UpdateOutcome(g, fts, ruleID, endpoint, extra, stored) == Ok(Some(b))
    requires k in ThroughputKeys && k !in extra && k in b
    ensures (UpdateFields(rule) + extra)["state"] == Str("OK") && endpoint != ""
  {
    var full := UpdateFields(rule) + extra;
    var tp := UpdateThroughput(g, fts, endpoint, rule, extra);
    var l := UpdateLookup(g, full);
    assert UpdateBody(rule, extra, stored, tp, l, false) == Ok(b);
    BodyThroughput(rule, extra, stored, tp, l, false, b, k);
  }

  /**
    The endpoint and protocol sent are the first PFN at the rule's RSE and its scheme, or
    None when the lookup fails; a failed lookup never stops the update, which raises
    only when the duration rule does.
   */
  lemma UpdateEndpoint(g: Grid, fts: map<string, seq<int>>, ruleID: Value, endpoint: string, extra: Doc, stored: Option<Doc>)
    requires RuleInfo(g, ruleID).Ok?
    ensures var rule := RuleInfo(g, ruleID).value;
      var l := UpdateLookup(g, UpdateFields(rule) + extra);
      var r := UpdateOutcome(g, fts, ruleID, endpoint, extra, stored);
      (r.Raised? <==> DurationFields(UpdateFields(rule) + extra, stored).Raised?)
      && (r.Ok? ==>
            r.value.Some? && EndpointKeys <= r.value.value.Keys
            && r.value.value["endpoint"] == (if l.Found? then Str(l.pfn) else Null)
            && r.value.value["protocol"] == (if l.Found? then Str(Protocol(l.pfn)) else Null))
  {
    var rule := RuleInfo(g, ruleID).value;
    var l := UpdateLookup(g, UpdateFields(rule) + extra);
    BodyEndpoint(rule, extra, stored, UpdateThroughput(g, fts, endpoint, rule, extra), l, false);
  }

  /**
    Updating a rule twice in a row leaves its document as the first update left it:
    the second run sees the new state and adds no second duration.
   */
  lemma UpdateIdempotent(g: Grid, fts: map<string, seq<int>>, ruleID: Value, endpoint: string, extra: Doc, s: Doc)
    requires "replication_duration" !in extra
    requires UpdateOutcome(g, fts, ruleID, endpoint, extra, Some(s)).Ok?
    requires UpdateOutcome(g, fts, ruleID, endpoint, extra, Some(s)).value.Some?
    ensures var b := UpdateOutcome(g, fts, ruleID, endpoint, extra, Some(s)).value.value;
      var again := UpdateOutcome(g, fts, ruleID, endpoint, extra, Some(s + b));
      again.Ok? && again.value.Some? && (s + b) + again.value.value == s + b
  {
    var rule := RuleInfo(g, ruleID).value;
    var full := UpdateFields(rule) + extra;
    var tp := UpdateThroughput(g, fts, endpoint, rule, extra);
    var l := UpdateLookup(g, full);
    var b := UpdateBody(rule, extra, Some(s), tp, l, false).value;
    UpdateTwice(rule, extra, s, tp, l, false, b);
  }

  /**
    `updateRuleWithDID`: reads the rule (skipping it when that fails), reads the stored
    document when the rule is OK, and sends the update; a rejected update is logged.
   */
  method UpdateRuleWithDID(store: Store, g: Grid, fts: map<string, seq<int>>, ruleID: Value, index: string,
                           endpoint: string, extra: Doc) returns (r: Result<Option<Doc>>)
    modifies store
    ensures r == UpdateOutcome(g, fts, ruleID, endpoint, extra,
                               StoredAt(old(store.docs), store.rejected, DocKey(index, Render(ruleID))))
    ensures store.docs == if r.Ok? && r.value.Some?
      then Updated(old(store.docs), store.rejected, DocKey(index, Render(ruleID)), r.value.value)
      else old(store.docs)
  {
    var info := RuleInfo(g, ruleID);
    if info.Raised? {
      return Ok(None);
    }
    var rule := info.value;
    var full := UpdateFields(rule) + extra;
    ghost var wanted := StoredAt(store.docs, store.rejected, DocKey(index, Render(ruleID)));
    var stored: Option<Doc> := None;
    if full["state"] == Str("OK") {
      stored := store.Get(index, Render(ruleID));
    }
    var tp: Doc := map[];
    if full["state"] == Str("OK") && endpoint != "" {
      tp := ComputeThroughput(g, fts, endpoint, rule);
    }
    assert tp == UpdateThroughput(g, fts, endpoint, rule, extra);
    var l := UpdateLookup(g, full);
    var body := UpdateBody(rule, extra, stored, tp, l, false);
    assert body == UpdateBody(rule, extra, wanted, tp, l, false) by {
      StoredUnread(rule, extra, stored, wanted, tp, l, false);
    }
    assert UpdateOutcome(g, fts, ruleID, endpoint, extra, wanted) == if body.Raised? then Raised else Ok(Some(body.value));
    if body.Raised? {
      return Raised;
    }
    var _ := store.Update(index, Render(ruleID), body.value);
    r := Ok(Some(body.value));
  }
}
