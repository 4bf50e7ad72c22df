/**
  The older indexer `es.ESRucio`: the same documents as the package's indexer, but a
  DID without rules gets an entry holding only a timestamp (it is written only when
  the base entry names a rule id), the state flags are set only when the merged
  entry has a state, and updates carry no throughput fields.
 */
module EsLegacy {
  import opened Wrappers
  import opened Seqs
  import opened Values
  import opened EsStore
  import opened RucioWrappers
  import opened StateFlags
  import opened RuleDocs

  // ---------------------------------------------------------------- pushRulesForDID

  /** The entry for one rule: its fields and its endpoint. */
  function RuleEntry(r: Rule, nowSecs: int, l: Lookup): Doc
  {
    PushFields(r, nowSecs) + EndpointOf(l)
  }

  /** The entry for a DID without rules: only a timestamp. */
  function Stamp(nowSecs: int): Doc
  {
    map["@timestamp" := Int(Millis(nowSecs))]
  }

  function BuildEntries(rules: seq<Rule>, lookups: seq<Lookup>, nowSecs: int): seq<Doc>
    requires |lookups| == |rules|
  {
    if |rules| > 0 then seq(|rules|, i requires 0 <= i < |rules| => RuleEntry(rules[i], nowSecs, lookups[i]))
    else [Stamp(nowSecs)]
  }

  /** The entries built for `did`; listing the rules of a DID without ':' raises. */
  function Entries(g: Grid, did: string, nowSecs: int): (r: Result<seq<Doc>>)
    ensures r.Raised? <==> ':' !in did
  {
    match ListReplicationRules(g, did)
    case Raised => Raised
    case Ok(rules) => Ok(BuildEntries(rules, RuleLookups(g, did, rules), nowSecs))
  }

  /**
    `{**entry, **baseEntry}` with the five flags, when it has a state; without one the
    first flag assignment raises `KeyError`, which is swallowed, so no flag is added.
   */
  function FullEntry(e: Doc, base: Doc): Doc
  {
    var m := e + base;
    if "state" in m then m + Pushed(Some(m["state"])) else m
  }

  function FullEntries(es: seq<Doc>, base: Doc): (r: seq<Doc>)
    ensures |r| == |es|
  {
    seq(|es|, i requires 0 <= i < |es| => FullEntry(es[i], base))
  }

  lemma FullEntriesAt(es: seq<Doc>, base: Doc, i: nat)
    requires i < |es|
    ensures FullEntries(es, base)[i] == FullEntry(es[i], base)
  {
  }

  /** The entries `pushRulesForDID` hands to `_index`. */
  function PushedDocs(g: Grid, did: string, base: Doc, nowSecs: int): Result<seq<Doc>>
  {
    match Entries(g, did, nowSecs)
    case Raised => Raised
    case Ok(es) => Ok(FullEntries(es, base))
  }

  /**
    A merged entry: the base entry's fields win over the rule's (flags aside), and
    the flags are there, following the state, exactly when there is a state.
   */
  lemma FullEntryFields(e: Doc, base: Doc)
    ensures var m, d := e + base, FullEntry(e, base);
      ("state" in m ==> forall k :: k in PushFlags ==> k in d && (d[k] == Int(1) <==> m["state"] == Str(Marks(k))))
      && ("state" !in m ==> d == m)
      && (forall k :: k in base && k !in PushFlags ==> k in d && d[k] == base[k])
      && (forall k :: k in e && k !in base && k !in PushFlags ==> k in d && d[k] == e[k])
  {
    assert "state" !in PushFlags;
  }

  /**
    Without rules the single entry is the timestamp under the base entry, and it is
    written only when the base entry supplies a rule id (and the write is accepted).
   */
  lemma NoRulesEntry(docs: map<DocKey, Doc>, rejected: set<DocKey>, index: string, base: Doc, nowSecs: int)
    ensures FullEntries(BuildEntries([], [], nowSecs), base) == [FullEntry(Stamp(nowSecs), base)]
    ensures "rule_id" !in base ==> IndexAll(docs, rejected, index, [FullEntry(Stamp(nowSecs), base)]) == docs
    ensures "rule_id" in base && DocKey(index, Render(base["rule_id"])) !in rejected ==>
      IndexAll(docs, rejected, index, [FullEntry(Stamp(nowSecs), base)])
        == docs[DocKey(index, Render(base["rule_id"])) := FullEntry(Stamp(nowSecs), base)]
  {
    var d := FullEntry(Stamp(nowSecs), base);
    assert "rule_id" !in PushFlags;
    assert "rule_id" in d <==> "rule_id" in base;
    assert "rule_id" in base ==> d["rule_id"] == base["rule_id"];
    var none: seq<Doc> := [];
    assert [d][1..] == none;
  }

  /** With rules, one entry per rule, stored under the base entry's id or else the rule's. */
  lemma PushShape(rules: seq<Rule>, lookups: seq<Lookup>, base: Doc, nowSecs: int, index: string)
    requires |lookups| == |rules| && rules != []
    ensures var docs := FullEntries(BuildEntries(rules, lookups, nowSecs), base);
      |docs| == |rules|
      && forall i :: 0 <= i < |rules| ==> KeyOf(index, docs[i]) == Some(DocKey(index,
            if "rule_id" in base then Render(base["rule_id"]) else rules[i].id))
  {
    var es := BuildEntries(rules, lookups, nowSecs);
    var docs := FullEntries(es, base);
    forall i | 0 <= i < |rules|
      ensures KeyOf(index, docs[i]) == Some(DocKey(index, if "rule_id" in base then Render(base["rule_id"]) else rules[i].id))
    {
      assert es[i] == RuleEntry(rules[i], nowSecs, lookups[i]);
      RuleEntryKey(rules[i], nowSecs, lookups[i], base, index);
    }
  }

  lemma RuleEntryKey(r: Rule, nowSecs: int, l: Lookup, base: Doc, index: string)
    ensures KeyOf(index, FullEntry(RuleEntry(r, nowSecs, l), base))
      == Some(DocKey(index, if "rule_id" in base then Render(base["rule_id"]) else r.id))
  {
    var e := RuleEntry(r, nowSecs, l);
    assert "rule_id" !in EndpointOf(l);
    MergeLeft(PushFields(r, nowSecs), EndpointOf(l), "rule_id");
    var m := e + base;
    if "rule_id" in base {
      MergeRight(e, base, "rule_id");
    } else {
      MergeLeft(e, base, "rule_id");
    }
    if "state" in m {
      PushedLacksRuleId(Some(m["state"]));
      MergeLeft(m, Pushed(Some(m["state"])), "rule_id");
    }
  }

  /** `pushRulesForDID`: builds the entries, then indexes each, skipping failed writes. */
  method PushRulesForDID(store: Store, g: Grid, did: string, index: string, base: Doc, nowSecs: int)
    returns (r: Result<seq<Doc>>)
    modifies store
    ensures r == PushedDocs(g, did, base, nowSecs)
    ensures store.docs == if r.Ok? then IndexAll(old(store.docs), store.rejected, index, r.value) else old(store.docs)
  {
    var listed := ListReplicationRules(g, did);
    if listed.Raised? {
      return Raised;
    }
    var entries := CollectEntries(g, did, listed.value, nowSecs);
    r := IndexEntries(store, index, entries, base);
  }

  /** The loop over the rules building their entries, with one endpoint lookup each. */
  method CollectEntries(g: Grid, did: string, rules: seq<Rule>, nowSecs: int) returns (entries: seq<Doc>)
    ensures entries == BuildEntries(rules, RuleLookups(g, did, rules), nowSecs)
  {
    ghost var lookups := RuleLookups(g, did, rules);
    if |rules| == 0 {
      return [Stamp(nowSecs)];
    }
    entries := [];
    var i := 0;
    while i < |rules|
      invariant i <= |rules| && |entries| == i
      invariant forall j :: 0 <= j < i ==> entries[j] == RuleEntry(rules[j], nowSecs, lookups[j])
    {
      var entry := PushFields(rules[i], nowSecs);
      var l := PfnLookup(g, did, Str(rules[i].rseExpression));
      assert l == lookups[i];
      entry := entry + EndpointOf(l);
      entries := entries + [entry];
      i := i + 1;
    }
  }

  /** The loop merging the base entry into each entry, adding the flags and indexing it. */
  method IndexEntries(store: Store, index: string, entries: seq<Doc>, base: Doc) returns (r: Result<seq<Doc>>)
    modifies store
    ensures r == Ok(FullEntries(entries, base))
    ensures store.docs == IndexAll(old(store.docs), store.rejected, index, FullEntries(entries, base))
  {
    ghost var all := FullEntries(entries, base);
    var pushed: seq<Doc> := [];
    var i := 0;
    while i < |entries|
      invariant i <= |entries| && pushed == all[..i]
      invariant IndexAll(store.docs, store.rejected, index, all[i..]) == IndexAll(old(store.docs), store.rejected, index, all)
    {
      var full := IndexEntry(store, index, entries, base, i);
      TakeSnoc(all, i);
      pushed := pushed + [full];
      i := i + 1;
    }
    assert all[..i] == all;
    r := Ok(pushed);
  }

  /** One pass of the loop body: the `i`-th entry, merged, marked when it has a state, and indexed. */
  method IndexEntry(store: Store, index: string, entries: seq<Doc>, base: Doc, i: nat) returns (full: Doc)
    requires i < |entries|
    modifies store
    ensures full == FullEntries(entries, base)[i]
    ensures IndexAll(store.docs, store.rejected, index, FullEntries(entries, base)[i + 1..])
      == IndexAll(old(store.docs), store.rejected, index, FullEntries(entries, base)[i..])
  {
    full := entries[i] + base;
    if "state" in full {
      full := full + Pushed(Some(full["state"]));
    }
    FullEntriesAt(entries, base, i);
    IndexAllStep(store.docs, store.rejected, index, FullEntries(entries, base), i);
    IndexDoc(store, index, full);
  }

  // ---------------------------------------------------------------- updateRuleWithDID

  /**
    What `updateRuleWithDID` does: Ok(None) when the rule cannot be read (skipped),
    Ok(Some(body)) when it sends `body`, Raised when the duration rule raises. Any
    failed endpoint lookup gives None values.
   */
  function UpdateOutcome(g: Grid, ruleID: Value, extra: Doc, stored: Option<Doc>): (r: Result<Option<Doc>>)
    ensures RuleInfo(g, ruleID).Raised? <==> r == Ok(None)
    ensures (RuleInfo(g, ruleID).Ok? && stored.None?
             && (UpdateFields(RuleInfo(g, ruleID).value) + extra)["state"] == Str("OK")) ==> r.Raised?
  {
    match RuleInfo(g, ruleID)
    case Raised => Ok(None)
    case Ok(rule) =>
      var full := UpdateFields(rule) + extra;
      match UpdateBody(rule, extra, stored, map[], UpdateLookup(g, full), false)
      case Raised => Raised
      case Ok(b) => Ok(Some(b))
  }

  /**
    A sent body is partial: no field outside the rule's update fields, the extra
    entries, the duration, the three progress flags (following the state) and the
    endpoint. In particular no throughput field and no upload flag.
   */
  lemma UpdateBodyFields(g: Grid, ruleID: Value, extra: Doc, stored: Option<Doc>, b: Doc)
    requires UpdateOutcome(g, ruleID, extra, stored) == Ok(Some(b))
    ensures forall k :: k in b ==>
      k in UpdateKeys || k in extra || k == "replication_duration" || k in ProgressFlags || k in EndpointKeys
    ensures "state" in b && forall k :: k in ProgressFlags ==> k in b && (b[k] == Int(1) <==> b["state"] == Str(Marks(k)))
  {
    var rule := RuleInfo(g, ruleID).value;
    var l := UpdateLookup(g, UpdateFields(rule) + extra);
    assert UpdateBody(rule, extra, stored, map[], l, false) == Ok(b);
    forall k | k in b
      ensures k in UpdateKeys || k in extra || k == "replication_duration" || k in ProgressFlags || k in EndpointKeys
    {
      BodyKeys(rule, extra, stored, map[], l, false, b, k);
    }
    UpdateFlagsFollowState(rule, extra, stored, map[], l, false);
  }

  /**
    The endpoint and protocol sent are the first PFN at the rule's RSE and its scheme, or
    None when the lookup fails; a failed lookup never stops the update, which raises
    only when the duration rule does.
   */
  lemma UpdateEndpoint(g: Grid, ruleID: Value, extra: Doc, stored: Option<Doc>)
    requires RuleInfo(g, ruleID).Ok?
    ensures var rule := RuleInfo(g, ruleID).value;
      var l := UpdateLookup(g, UpdateFields(rule) + extra);
      var r := UpdateOutcome(g, ruleID, extra, stored);
      (r.Raised? <==> DurationFields(UpdateFields(rule) + extra, stored).Raised?)
      && (r.Ok? ==>
            r.value.Some? && EndpointKeys <= r.value.value.Keys
            && r.value.value["endpoint"] == (if l.Found? then Str(l.pfn) else Null)
            && r.value.value["protocol"] == (if l.Found? then Str(Protocol(l.pfn)) else Null))
  {
    var rule := RuleInfo(g, ruleID).value;
    var l := UpdateLookup(g, UpdateFields(rule) + extra);
    BodyEndpoint(rule, extra, stored, map[], l, false);
  }

  /** Updating a rule twice in a row leaves its document as the first update left it. */
  lemma UpdateIdempotent(g: Grid, ruleID: Value, extra: Doc, s: Doc)
    requires "replication_duration" !in extra
    requires UpdateOutcome(g, ruleID, extra, Some(s)).Ok? && UpdateOutcome(g, ruleID, extra, Some(s)).value.Some?
    ensures var b := UpdateOutcome(g, ruleID, extra, Some(s)).value.value;
      var again := UpdateOutcome(g, ruleID, extra, Some(s + b));
      again.Ok? && again.value.Some? && (s + b) + again.value.value == s + b
  {
    var rule := RuleInfo(g, ruleID).value;
    var l := UpdateLookup(g, UpdateFields(rule) + extra);
    var b := UpdateBody(rule, extra, Some(s), map[], l, false).value;
    UpdateTwice(rule, extra, s, map[], l, false, b);
  }

  /**
    `updateRuleWithDID`: reads the rule (skipping it when that fails), reads the stored
    document when the rule is OK, and sends the update; a rejected update is logged.
   */
  method UpdateRuleWithDID(store: Store, g: Grid, ruleID: Value, index: string, extra: Doc)
    returns (r: Result<Option<Doc>>)
    modifies store
    ensures r == UpdateOutcome(g, ruleID, extra, StoredAt(old(store.docs), store.rejected, DocKey(index, Render(ruleID))))
    ensures store.docs == if r.Ok? && r.value.Some?
      then Updated(old(store.docs), store.rejected, DocKey(index, Render(ruleID)), r.value.value)
      else old(store.docs)
  {
    var info := RuleInfo(g, ruleID);
    if info.Raised? {
      return Ok(None);
    }
    var rule := info.value;
    var full := UpdateFields(rule) + extra;
    ghost var wanted := StoredAt(store.docs, store.rejected, DocKey(index, Render(ruleID)));
    var stored: Option<Doc> := None;
    if full["state"] == Str("OK") {
      stored := store.Get(index, Render(ruleID));
    }
    var l := UpdateLookup(g, full);
    var body := UpdateBody(rule, extra, stored, map[], l, false);
    assert body == UpdateBody(rule, extra, wanted, map[], l, false) by {
      StoredUnread(rule, extra, stored, wanted, map[], l, false);
    }
    assert UpdateOutcome(g, ruleID, extra, wanted) == if body.Raised? then Raised else Ok(Some(body.value));
    if body.Raised? {
      return Raised;
    }
    var _ := store.Update(index, Render(ruleID), body.value);
    r := Ok(Some(body.value));
  }
}
