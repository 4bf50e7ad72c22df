/**
  The oldest indexer, `db.ES`: every pushed document is marked submitted, the flags
  are computed from a state that must be there, an endpoint lookup falls back to
  None only on a missing RSE key, and a failed write ends the process.
 */
module Db {
  import opened Wrappers
  import opened Seqs
  import opened Values
  import opened EsStore
  import opened RucioWrappers
  import opened StateFlags
  import opened RuleDocs
  import Legacy = EsLegacy

  /** How a push ends: normally, with an exception out of the call, or with `exit()`. */
  datatype Run = Completed | Raising | Exiting

  // ---------------------------------------------------------------- pushRulesForDID

  /** Some lookup failed other than by a missing RSE key. */
  predicate AnyFailed(ls: seq<Lookup>)
  {
    exists i :: 0 <= i < |ls| && ls[i].Failed?
  }

  /** The entries for the rules, or Raised when a lookup raised. */
  function StrictEntries(rules: seq<Rule>, lookups: seq<Lookup>, nowSecs: int): (r: Result<seq<Doc>>)
    requires |lookups| == |rules|
    ensures r.Raised? <==> AnyFailed(lookups)
  {
    if AnyFailed(lookups) then Raised else Ok(Legacy.BuildEntries(rules, lookups, nowSecs))
  }

  /**
    The entries built for `did`. A lookup that fails other than by a missing RSE key
    raises out of the call, before anything is written.
   */
  function Entries(g: Grid, did: string, nowSecs: int): (r: Result<seq<Doc>>)
    ensures r.Raised? <==> ':' !in did || AnyFailed(RuleLookups(g, did, ListReplicationRules(g, did).value))
  {
    match ListReplicationRules(g, did)
    case Raised => Raised
    case Ok(rules) => StrictEntries(rules, RuleLookups(g, did, rules), nowSecs)
  }

  /** `{**entry, **baseEntry}`, marked submitted, with the five flags from its state. */
  function FullEntry(e: Doc, base: Doc): Doc
  {
    var m := (e + base)["is_submitted" := Int(1)];
    m + Pushed(Get(m, "state"))
  }

  /** An entry the indexing loop gets past: it has a state, and its write is not refused. */
  predicate Passes(rejected: set<DocKey>, index: string, e: Doc, base: Doc)
  {
    "state" in e + base && (KeyOf(index, FullEntry(e, base)).None? || KeyOf(index, FullEntry(e, base)).value !in rejected)
  }

  /**
    The indexing loop: a missing state raises out of the call, a missing rule id is
    caught and the entry skipped, and a refused write ends the process.
   */
  function IndexRun(docs: map<DocKey, Doc>, rejected: set<DocKey>, index: string, entries: seq<Doc>, base: Doc)
    : (map<DocKey, Doc>, Run)
    decreases |entries|
  {
    if entries == [] then (docs, Completed)
    else if "state" !in entries[0] + base then (docs, Raising)
    else
      var d := FullEntry(entries[0], base);
      match KeyOf(index, d)
      case None => IndexRun(docs, rejected, index, entries[1..], base)
      case Some(k) => if k in rejected then (docs, Exiting) else IndexRun(docs[k := d], rejected, index, entries[1..], base)
  }

  /** What `pushRulesForDID` does to the store, and how it ends. */
  function PushRun(docs: map<DocKey, Doc>, rejected: set<DocKey>, g: Grid, did: string, index: string, base: Doc,
                   nowSecs: int): (map<DocKey, Doc>, Run)
  {
    match Entries(g, did, nowSecs)
    case Raised => (docs, Raising)
    case Ok(es) => IndexRun(docs, rejected, index, es, base)
  }

  /**
    A pushed document is marked submitted whatever the base entry says, its flags follow
    its state, and otherwise the base entry's fields win over the rule's.
   */
  lemma FullEntryFields(e: Doc, base: Doc)
    ensures var d := FullEntry(e, base);
      "is_submitted" in d && d["is_submitted"] == Int(1)
      && (forall k :: k in PushFlags ==> k in d && (d[k] == Int(1) <==> Get(d, "state") == Some(Str(Marks(k)))))
      && (forall k :: k in base && k !in PushFlags && k != "is_submitted" ==> k in d && d[k] == base[k])
      && (forall k :: k in e && k !in base && k !in PushFlags && k != "is_submitted" ==> k in d && d[k] == e[k])
  {
    var m := (e + base)["is_submitted" := Int(1)];
    assert "state" !in PushFlags && "is_submitted" !in PushFlags;
    assert Get(FullEntry(e, base), "state") == Get(m, "state");
  }

  /** Every entry passes. */
  predicate AllPass(rejected: set<DocKey>, index: string, entries: seq<Doc>, base: Doc)
  {
    forall i :: 0 <= i < |entries| ==> Passes(rejected, index, entries[i], base)
  }

  lemma AllPassCons(rejected: set<DocKey>, index: string, entries: seq<Doc>, base: Doc)
    requires entries != []
    ensures AllPass(rejected, index, entries, base)
      <==> Passes(rejected, index, entries[0], base) && AllPass(rejected, index, entries[1..], base)
  {
    if Passes(rejected, index, entries[0], base) && AllPass(rejected, index, entries[1..], base) {
      forall i | 0 <= i < |entries| ensures Passes(rejected, index, entries[i], base) {
        if i > 0 {
          TailAt(entries, i - 1);
        }
      }
    }
  }

  /** The loop runs to the end exactly when every entry passes. */
  lemma {:induction false} IndexRunCompletes(docs: map<DocKey, Doc>, rejected: set<DocKey>, index: string, entries: seq<Doc>,
                                             base: Doc)
    ensures IndexRun(docs, rejected, index, entries, base).1 == Completed <==> AllPass(rejected, index, entries, base)
    decreases |entries|
  {
    if entries != [] {
      AllPassCons(rejected, index, entries, base);
      if "state" !in entries[0] + base {
        IndexRunRaises(docs, rejected, index, entries, base);
      } else {
        var d := FullEntry(entries[0], base);
        match KeyOf(index, d)
        case None =>
          IndexRunSkips(docs, rejected, index, entries, base);
          IndexRunCompletes(docs, rejected, index, entries[1..], base);
        case Some(k) =>
          if k in rejected {
            IndexRunExits(docs, rejected, index, entries, base, k);
          } else {
            IndexRunWrites(docs, rejected, index, entries, base, k);
            IndexRunCompletes(docs[k := d], rejected, index, entries[1..], base);
          }
      }
    }
  }

  /** A loop that stops early raised at an entry without a state, or exited at a refused write. */
  lemma {:induction false} IndexRunStops(docs: map<DocKey, Doc>, rejected: set<DocKey>, index: string, entries: seq<Doc>,
                                         base: Doc)
    ensures IndexRun(docs, rejected, index, entries, base).1 == Raising ==>
      exists i :: 0 <= i < |entries| && "state" !in entries[i] + base
    ensures IndexRun(docs, rejected, index, entries, base).1 == Exiting ==>
      exists i :: 0 <= i < |entries| && "state" in entries[i] + base && !Passes(rejected, index, entries[i], base)
    decreases |entries|
  {
    if entries != [] {
      if "state" !in entries[0] + base {
        IndexRunRaises(docs, rejected, index, entries, base);
      } else {
        var d := FullEntry(entries[0], base);
        var key := KeyOf(index, d);
        if key.Some? && key.value in rejected {
          IndexRunExits(docs, rejected, index, entries, base, key.value);
        } else {
          var next := if key.Some? then docs[key.value := d] else docs;
          if key.Some? {
            IndexRunWrites(docs, rejected, index, entries, base, key.value);
          } else {
            IndexRunSkips(docs, rejected, index, entries, base);
          }
          IndexRunStops(next, rejected, index, entries[1..], base);
          StopsShift(next, rejected, index, entries, base);
        }
      }
    }
  }

  lemma StopsShift(next: map<DocKey, Doc>, rejected: set<DocKey>, index: string, entries: seq<Doc>, base: Doc)
    requires entries != []
    requires IndexRun(next, rejected, index, entries[1..], base).1 == Raising ==>
      exists i :: 0 <= i < |entries[1..]| && "state" !in entries[1..][i] + base
    requires IndexRun(next, rejected, index, entries[1..], base).1 == Exiting ==>
      exists i :: 0 <= i < |entries[1..]| && "state" in entries[1..][i] + base && !Passes(rejected, index, entries[1..][i], base)
    ensures IndexRun(next, rejected, index, entries[1..], base).1 == Raising ==>
      exists i :: 0 <= i < |entries| && "state" !in entries[i] + base
    ensures IndexRun(next, rejected, index, entries[1..], base).1 == Exiting ==>
      exists i :: 0 <= i < |entries| && "state" in entries[i] + base && !Passes(rejected, index, entries[i], base)
  {
    var r := IndexRun(next, rejected, index, entries[1..], base).1;
    if r == Raising {
      var j :| 0 <= j < |entries[1..]| && "state" !in entries[1..][j] + base;
      TailAt(entries, j);
    }
    if r == Exiting {
      var j :| 0 <= j < |entries[1..]| && "state" in entries[1..][j] + base && !Passes(rejected, index, entries[1..][j], base);
      TailAt(entries, j);
    }
  }

  /** Every document the loop writes is marked submitted; other keys keep their documents. */
  lemma {:induction false} IndexRunSubmitted(docs: map<DocKey, Doc>, rejected: set<DocKey>, index: string, entries: seq<Doc>,
                                             base: Doc, k: DocKey)
    ensures var r := IndexRun(docs, rejected, index, entries, base).0;
      k in r ==> (k in docs && r[k] == docs[k]) || ("is_submitted" in r[k] && r[k]["is_submitted"] == Int(1))
    ensures k in docs ==> k in IndexRun(docs, rejected, index, entries, base).0
    decreases |entries|
  {
    if entries != [] && "state" in entries[0] + base {
      var d := FullEntry(entries[0], base);
      FullEntryFields(entries[0], base);
      match KeyOf(index, d)
      case None =>
        IndexRunSubmitted(docs, rejected, index, entries[1..], base, k);
      case Some(key) =>
        if key !in rejected {
          IndexRunSubmitted(docs[key := d], rejected, index, entries[1..], base, k);
        }
    }
  }

  /** Without rules, the entry has a state only if the base entry brings one, else the push raises. */
  lemma NoRulesNeedState(docs: map<DocKey, Doc>, rejected: set<DocKey>, g: Grid, did: string, index: string, base: Doc,
                         nowSecs: int)
    requires ListReplicationRules(g, did) == Ok([])
    requires "state" !in base
    ensures PushRun(docs, rejected, g, did, index, base, nowSecs) == (docs, Raising)
  {
    var es := Legacy.BuildEntries([], [], nowSecs);
    assert Entries(g, did, nowSecs) == Ok(es);
    assert es[0] == Legacy.Stamp(nowSecs);
    assert "state" !in es[0] + base;
  }

  lemma IndexRunWrites(docs: map<DocKey, Doc>, rejected: set<DocKey>, index: string, entries: seq<Doc>, base: Doc,
                       k: DocKey)
    requires entries != [] && "state" in entries[0] + base
    requires KeyOf(index, FullEntry(entries[0], base)) == Some(k) && k !in rejected
    ensures IndexRun(docs, rejected, index, entries, base)
      == IndexRun(docs[k := FullEntry(entries[0], base)], rejected, index, entries[1..], base)
  {
  }

  lemma IndexRunRaises(docs: map<DocKey, Doc>, rejected: set<DocKey>, index: string, entries: seq<Doc>, base: Doc)
    requires entries != [] && "state" !in entries[0] + base
    ensures IndexRun(docs, rejected, index, entries, base) == (docs, Raising)
  {
  }

  lemma IndexRunExits(docs: map<DocKey, Doc>, rejected: set<DocKey>, index: string, entries: seq<Doc>, base: Doc,
                      k: DocKey)
    requires entries != [] && "state" in entries[0] + base
    requires KeyOf(index, FullEntry(entries[0], base)) == Some(k) && k in rejected
    ensures IndexRun(docs, rejected, index, entries, base) == (docs, Exiting)
  {
  }

  /** The loop's step-by-step flagging computes `FullEntry`. */
  lemma FlagSteps(e: Doc, base: Doc)
    ensures var m := (e + base)["is_submitted" := Int(1)];
      ("state" in m <==> "state" in e + base)
      && ("state" in m ==> m + Pushed(Some(m["state"])) == FullEntry(e, base))
  {
  }

  lemma IndexRunSkips(docs: map<DocKey, Doc>, rejected: set<DocKey>, index: string, entries: seq<Doc>, base: Doc)
    requires entries != [] && "state" in entries[0] + base && KeyOf(index, FullEntry(entries[0], base)).None?
    ensures IndexRun(docs, rejected, index, entries, base) == IndexRun(docs, rejected, index, entries[1..], base)
  {
  }

  /** `pushRulesForDID`: builds the entries, then indexes each in turn until one fails. */
  method PushRulesForDID(store: Store, g: Grid, did: string, index: string, base: Doc, nowSecs: int) returns (r: Run)
    modifies store
    ensures (store.docs, r) == PushRun(old(store.docs), store.rejected, g, did, index, base, nowSecs)
  {
    var listed := ListReplicationRules(g, did);
    if listed.Raised? {
      return Raising;
    }
    var entries := CollectEntries(g, did, listed.value, nowSecs);
    if entries.Raised? {
      return Raising;
    }
    r := IndexEntries(store, index, entries.value, base);
  }

  /** The loop over the rules building their entries; a lookup failing other than by `KeyError` raises. */
  method CollectEntries(g: Grid, did: string, rules: seq<Rule>, nowSecs: int) returns (entries: Result<seq<Doc>>)
    ensures entries == StrictEntries(rules, RuleLookups(g, did, rules), nowSecs)
  {
    ghost var lookups := RuleLookups(g, did, rules);
    if |rules| == 0 {
      return Ok([Legacy.Stamp(nowSecs)]);
    }
    ghost var want := Legacy.BuildEntries(rules, lookups, nowSecs);
    var built: seq<Doc> := [];
    var i := 0;
    while i < |rules|
      invariant i <= |rules| && built == want[..i]
      invariant forall j :: 0 <= j < i ==> !lookups[j].Failed?
    {
      var l, entry := RuleEntryAt(g, did, rules, nowSecs, i);
      if l.Failed? {
        assert AnyFailed(lookups);
        return Raised;
      }
      NoneFailedSnoc(lookups, i);
      TakeSnoc(want, i);
      built := built + [entry];
      i := i + 1;
    }
    assert !AnyFailed(lookups);
    assert want[..i] == want;
    return Ok(built);
  }

  lemma NoneFailedSnoc(ls: seq<Lookup>, i: nat)
    requires i < |ls| && !ls[i].Failed?
    requires forall j :: 0 <= j < i ==> !ls[j].Failed?
    ensures forall j :: 0 <= j < i + 1 ==> !ls[j].Failed?
  {
  }

  /** One pass of the loop body: the lookup for the `i`-th rule and, when it did not raise, its entry. */
  method RuleEntryAt(g: Grid, did: string, rules: seq<Rule>, nowSecs: int, i: nat) returns (l: Lookup, entry: Doc)
    requires 0 < |rules| && i < |rules|
    ensures l == RuleLookups(g, did, rules)[i]
    ensures !l.Failed? ==> entry == Legacy.BuildEntries(rules, RuleLookups(g, did, rules), nowSecs)[i]
  {
    entry := PushFields(rules[i], nowSecs);
    l := PfnLookup(g, did, Str(rules[i].rseExpression));
    if !l.Failed? {
      entry := entry + EndpointOf(l);
    }
  }

  /** The loop merging the base entry into each entry, marking it and indexing it; a refused write exits. */
  method IndexEntries(store: Store, index: string, entries: seq<Doc>, base: Doc) returns (r: Run)
    modifies store
    ensures (store.docs, r) == IndexRun(old(store.docs), store.rejected, index, entries, base)
  {
    var i := 0;
    while i < |entries|
      invariant i <= |entries|
      invariant IndexRun(store.docs, store.rejected, index, entries[i..], base)
        == IndexRun(old(store.docs), store.rejected, index, entries, base)
    {
      assert entries[i..][1..] == entries[i + 1..];
      var stop := IndexStep(store, index, entries[i..], base);
      if stop.Some? {
        return stop.value;
      }
      i := i + 1;
    }
    return Completed;
  }

  /** One pass of the loop body, for the first of `entries`: None to go on, or how the call ends. */
  method IndexStep(store: Store, index: string, entries: seq<Doc>, base: Doc) returns (stop: Option<Run>)
    requires entries != []
    modifies store
    ensures (if stop.Some? then (store.docs, stop.value) else IndexRun(store.docs, store.rejected, index, entries[1..], base))
      == IndexRun(old(store.docs), store.rejected, index, entries, base)
  {
    var entry := entries[0] + base;
    entry := entry["is_submitted" := Int(1)];
    FlagSteps(entries[0], base);
    if "state" !in entry {
      IndexRunRaises(store.docs, store.rejected, index, entries, base);
      return Some(Raising);
    }
    entry := entry + Pushed(Some(entry["state"]));
    if "rule_id" in entry {
      var k := DocKey(index, Render(entry["rule_id"]));
      ghost var before := store.docs;
      var ok := store.Index(index, Render(entry["rule_id"]), entry);
      if !ok {
        IndexRunExits(before, store.rejected, index, entries, base, k);
        return Some(Exiting);
      }
      IndexRunWrites(before, store.rejected, index, entries, base, k);
    } else {
      IndexRunSkips(store.docs, store.rejected, index, entries, base);
    }
    return None;
  }

  // ---------------------------------------------------------------- updateRuleWithDID

  /**
    What `updateRuleWithDID` does: Ok(None) when the rule cannot be read (skipped),
    Ok(Some(body)) when it sends `body`, Raised when the duration rule or the endpoint
    lookup raises.
   */
  function UpdateOutcome(g: Grid, ruleID: Value, extra: Doc, stored: Option<Doc>): (r: Result<Option<Doc>>)
    ensures RuleInfo(g, ruleID).Raised? <==> r == Ok(None)
    ensures (RuleInfo(g, ruleID).Ok? && stored.None?
             && (UpdateFields(RuleInfo(g, ruleID).value) + extra)["state"] == Str("OK")) ==> r.Raised?
  {
    match RuleInfo(g, ruleID)
    case Raised => Ok(None)
    case Ok(rule) =>
      var full := UpdateFields(rule) + extra;
      match UpdateBody(rule, extra, stored, map[], UpdateLookup(g, full), true)
      case Raised => Raised
      case Ok(b) => Ok(Some(b))
  }

  /**
    Only a missing RSE key gives a None endpoint: any other failed lookup raises, and a
    found PFN gives the endpoint and its scheme.
   */
  lemma UpdateEndpoint(g: Grid, ruleID: Value, extra: Doc, stored: Option<Doc>)
    requires RuleInfo(g, ruleID).Ok?
    ensures var rule := RuleInfo(g, ruleID).value;
      var l := UpdateLookup(g, UpdateFields(rule) + extra);
      var r := UpdateOutcome(g, ruleID, extra, stored);
      (l.Failed? ==> r.Raised?)
      && (r.Ok? ==>
            r.value.Some? && "endpoint" in r.value.value
            && r.value.value["endpoint"] == (if l.Found? then Str(l.pfn) else Null))
  {
    var rule := RuleInfo(g, ruleID).value;
    var l := UpdateLookup(g, UpdateFields(rule) + extra);
    BodyEndpoint(rule, extra, stored, map[], l, true);
  }

  /** A sent body is partial, and its three progress flags follow its state. */
  lemma UpdateBodyFields(g: Grid, ruleID: Value, extra: Doc, stored: Option<Doc>, b: Doc)
    requires UpdateOutcome(g, ruleID, extra, stored) == Ok(Some(b))
    ensures forall k :: k in b ==>
      k in UpdateKeys || k in extra || k == "replication_duration" || k in ProgressFlags || k in EndpointKeys
    ensures "state" in b && forall k :: k in ProgressFlags ==> k in b && (b[k] == Int(1) <==> b["state"] == Str(Marks(k)))
  {
    var rule := RuleInfo(g, ruleID).value;
    var l := UpdateLookup(g, UpdateFields(rule) + extra);
    assert UpdateBody(rule, extra, stored, map[], l, true) == Ok(b);
    forall k | k in b
      ensures k in UpdateKeys || k in extra || k == "replication_duration" || k in ProgressFlags || k in EndpointKeys
    {
      BodyKeys(rule, extra, stored, map[], l, true, b, k);
    }
    UpdateFlagsFollowState(rule, extra, stored, map[], l, true);
  }

  /** Updating a rule twice in a row leaves its document as the first update left it. */
  lemma UpdateIdempotent(g: Grid, ruleID: Value, extra: Doc, s: Doc)
    requires "replication_duration" !in extra
    requires UpdateOutcome(g, ruleID, extra, Some(s)).Ok? && UpdateOutcome(g, ruleID, extra, Some(s)).value.Some?
    ensures var b := UpdateOutcome(g, ruleID, extra, Some(s)).value.value;
      var again := UpdateOutcome(g, ruleID, extra, Some(s + b));
      again.Ok? && again.value.Some? && (s + b) + again.value.value == s + b
  {
    var rule := RuleInfo(g, ruleID).value;
    var l := UpdateLookup(g, UpdateFields(rule) + extra);
    var b := UpdateBody(rule, extra, Some(s), map[], l, true).value;
    UpdateTwice(rule, extra, s, map[], l, true, b);
  }

  /**
    `updateRuleWithDID`: reads the rule (skipping it when that fails), reads the stored
    document when the rule is OK, and sends the update; a rejected update is logged.
   */
  method UpdateRuleWithDID(store: Store, g: Grid, ruleID: Value, index: string, extra: Doc)
    returns (r: Result<Option<Doc>>)
    modifies store
    ensures r == UpdateOutcome(g, ruleID, extra, StoredAt(old(store.docs), store.rejected, DocKey(index, Render(ruleID))))
    ensures store.docs == if r.Ok? && r.value.Some?
      then Updated(old(store.docs), store.rejected, DocKey(index, Render(ruleID)), r.value.value)
      else old(store.docs)
  {
    var info := RuleInfo(g, ruleID);
    if info.Raised? {
      return Ok(None);
    }
    var rule := info.value;
    var full := UpdateFields(rule) + extra;
    ghost var wanted := StoredAt(store.docs, store.rejected, DocKey(index, Render(ruleID)));
    var stored: Option<Doc> := None;
    if full["state"] == Str("OK") {
      stored := store.Get(index, Render(ruleID));
    }
    var l := UpdateLookup(g, full);
    var body := UpdateBody(rule, extra, stored, map[], l, true);
    assert body == UpdateBody(rule, extra, wanted, map[], l, true) by {
      StoredUnread(rule, extra, stored, wanted, map[], l, true);
    }
    assert UpdateOutcome(g, ruleID, extra, wanted) == if body.Raised? then Raised else Ok(Some(body.value));
    if body.Raised? {
      return Raised;
    }
    var _ := store.Update(index, Render(ruleID), body.value);
    r := Ok(Some(body.value));
  }
}
