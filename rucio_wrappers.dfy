/**
  The Rucio client wrappers (API and CLI flavours) and the Rucio server they talk
  to, which the model takes as an in-memory input.
 */
module RucioWrappers {
  import opened Wrappers
  import opened Seqs
  import opened Text
  import opened Values

  /** A data identifier. */
  datatype Did = Did(scope: string, name: string)

  /** `"{}:{}".format(scope, name)`. */
  function DidString(d: Did): string
  {
    d.scope + ":" + d.name
  }

  /** `did` starts with `scope:name`, followed by its end or by another ':'. */
  predicate DidPrefix(did: string, d: Did)
  {
    var n := |d.scope| + 1 + |d.name|;
    n <= |did| && did[..n] == DidString(d) && (n == |did| || did[n] == ':')
  }

  /**
    `tokens = did.split(":"); scope = tokens[0]; name = tokens[1]`, with None where
    the indexing raises.
   */
  function SplitDid(did: string): (r: Option<Did>)
    ensures r.None? <==> ':' !in did
    ensures r.Some? ==> ':' !in r.value.scope && ':' !in r.value.name && DidPrefix(did, r.value)
  {
    SplitCharPieces(did, ':');
    var t := Split(did, ":");
    if |t| < 2 then None
    else
      SplitDidShape(did);
      Some(Did(t[0], t[1]))
  }

  lemma SplitDidShape(did: string)
    requires ':' in did
    ensures |Split(did, ":")| >= 2 && DidPrefix(did, Did(Split(did, ":")[0], Split(did, ":")[1]))
  {
    assert Find(did, ":").Some? by { FindChar(did, ':'); }
    var i := Find(did, ":").value;
    assert i < |did| && did[i] == ':' && ':' !in did[..i] by { FindChar(did, ':'); }
    var h, rest := did[..i], did[i + 1..];
    assert Split(did, ":") == [h] + Split(rest, ":") by {
      CutAt(did, ':', i);
      SplitCons(h, ":", rest);
    }
    if ':' in rest {
      assert Find(rest, ":").Some? by { FindChar(rest, ':'); }
      var j := Find(rest, ":").value;
      assert j < |rest| && rest[j] == ':' && ':' !in rest[..j] by { FindChar(rest, ':'); }
      var n, tail := rest[..j], rest[j + 1..];
      assert Split(rest, ":")[0] == n by {
        CutAt(rest, ':', j);
        SplitCons(n, ":", tail);
      }
      assert did[..i + 1 + j] == h + ":" + n by { PrefixOfCut(did, i, j); }
      assert did[i + 1 + j] == ':';
    } else {
      assert Split(rest, ":") == [rest] by { SplitSingle(rest, ":"); }
    }
  }

  lemma PrefixOfCut(s: string, i: nat, j: nat)
    requires i + 1 + j <= |s|
    ensures s[..i + 1 + j] == s[..i] + [s[i]] + s[i + 1..][..j]
  {
  }

  /** Formatting a DID and splitting it again gives it back. */
  lemma SplitDidString(d: Did)
    requires ':' !in d.scope && ':' !in d.name
    ensures SplitDid(DidString(d)) == Some(d)
  {
    SplitJoin([d.scope, d.name], ":");
    assert Join([d.scope, d.name], ":") == DidString(d);
  }

  /** A replication rule as the Rucio server reports it. */
  datatype Rule = Rule(
    id: string, scope: string, name: string, sourceReplicaExpression: Value,
    rseExpression: string, createdAt: Value, updatedAt: Value, expiresAt: Value,
    state: Value, error: Value)

  /** One replica of `list_replicas`: `replica['rses']`, RSE name to PFNs. */
  type Replica = map<string, seq<string>>

  /** The Rucio server's catalogue, as far as the reconciliation reads it. */
  datatype Grid = Grid(
    rulesOf: map<Did, seq<Rule>>,              // rules of a DID; none when absent
    rules: map<string, Rule>,                  // rule id to rule; absent ids raise RuleNotFound
    replicas: map<(Did, string), seq<Replica>>, // (DID, RSE expression) to replicas; none when absent
    replicasAll: map<Did, seq<Replica>>,       // a DID's replicas on every RSE, asked without an expression
    contents: map<Did, seq<Did>>,              // children of a collection; absent DIDs raise
    requests: map<(Did, string), Value>)       // (DID, RSE) to the transfer request's external_id

  /** `listReplicationRules(did)`. */
  function ListReplicationRules(g: Grid, did: string): (r: Result<seq<Rule>>)
    ensures r.Raised? <==> ':' !in did
  {
    match SplitDid(did)
    case None => Raised
    case Some(d) => Ok(if d in g.rulesOf then g.rulesOf[d] else [])
  }

  /** `ruleInfo(ruleId)`: `get_replication_rule`. */
  function RuleInfo(g: Grid, id: Value): (r: Result<Rule>)
    ensures r.Ok? <==> id.Str? && id.s in g.rules
  {
    if id.Str? && id.s in g.rules then Ok(g.rules[id.s]) else Raised
  }

  /**
    `listFileReplicas(did, rse)`: `rse` None asks for the replicas on every RSE; an
    expression that is neither a string nor None is refused by the server.
   */
  function ListFileReplicas(g: Grid, did: string, rse: Value): (r: Result<seq<Replica>>)
    ensures r.Raised? <==> ':' !in did || !(rse.Str? || rse.Null?)
    ensures r.Ok? && rse.Null? ==> var d := SplitDid(did).value;
      r.value == if d in g.replicasAll then g.replicasAll[d] else []
    ensures r.Ok? && rse.Str? ==> var d := SplitDid(did).value;
      r.value == if (d, rse.s) in g.replicas then g.replicas[(d, rse.s)] else []
  {
    match SplitDid(did)
    case None => Raised
    case Some(d) =>
      if rse.Null? then Ok(if d in g.replicasAll then g.replicasAll[d] else [])
      else if !rse.Str? then Raised
      else Ok(if (d, rse.s) in g.replicas then g.replicas[(d, rse.s)] else [])
  }

  /** `listContent(scope, name)`. */
  function ListContent(g: Grid, d: Did): (r: Result<seq<Did>>)
    ensures r.Ok? <==> d in g.contents
  {
    if d in g.contents then Ok(g.contents[d]) else Raised
  }

  /** `getRequestHistory(did, rse)['external_id']`. */
  function RequestExternalId(g: Grid, did: string, rse: Value): (r: Result<Value>)
    ensures r.Ok? <==> SplitDid(did).Some? && rse.Str? && (SplitDid(did).value, rse.s) in g.requests
  {
    match SplitDid(did)
    case None => Raised
    case Some(d) =>
      if rse.Str? && (d, rse.s) in g.requests then Ok(g.requests[(d, rse.s)]) else Raised
  }

  // ---------------------------------------------------------------- attach / detach

  /** `{"scope": ..., "name": ..., "dids": [...]}`: a parent DID and the DIDs to (de)tach. */
  datatype Attachment = Attachment(parent: Did, dids: seq<Did>)

  /** The DIDs of a token list, or None if some token has no ':'. */
  function DidsOf(tokens: seq<string>): (r: Option<seq<Did>>)
    ensures r.Some? ==> |r.value| == |tokens|
    ensures r.Some? ==> forall i :: 0 <= i < |tokens| ==> SplitDid(tokens[i]) == Some(r.value[i])
    ensures r.None? <==> exists i :: 0 <= i < |tokens| && ':' !in tokens[i]
  {
    if tokens == [] then Some([])
    else
      match SplitDid(tokens[0])
      case None => None
      case Some(d) =>
        match DidsOf(tokens[1..])
        case None =>
          var i :| 0 <= i < |tokens[1..]| && ':' !in tokens[1..][i];
          assert ':' !in tokens[i + 1];
          None
        case Some(ds) =>
          assert forall i :: 1 <= i < |tokens| ==> tokens[i] == tokens[1..][i - 1];
          Some([d] + ds)
  }

  /**
    The payload of `attach(todid, dids)` and of `detach(fromdid, dids)`: the parent DID
    and one DID per space-separated token, in order. None where a split raises.
   */
  method AttachPayload(parent: string, dids: string) returns (r: Option<Attachment>)
    ensures r.Some? <==> ':' in parent && DidsOf(Split(dids, " ")).Some?
    ensures r.Some? ==> r.value == Attachment(SplitDid(parent).value, DidsOf(Split(dids, " ")).value)
  {
    var p := SplitDid(parent);
    if p.None? {
      return None;
    }
    var tokens := Split(dids, " ");
    var out: seq<Did> := [];
    var i := 0;
    while i < |tokens|
      invariant 0 <= i <= |tokens|
      invariant DidsOf(tokens[..i]) == Some(out)
    {
      var d := SplitDid(tokens[i]);
      if d.None? {
        assert ':' !in tokens[i];
        return None;
      }
      DidsOfSnoc(tokens[..i], tokens[i]);
      TakeSnoc(tokens, i);
      out := out + [d.value];
      i := i + 1;
    }
    assert tokens[..i] == tokens;
    r := Some(Attachment(p.value, out));
  }

  lemma DidsOfSnoc(tokens: seq<string>, t: string)
    requires DidsOf(tokens).Some? && ':' in t
    ensures DidsOf(tokens + [t]) == Some(DidsOf(tokens).value + [SplitDid(t).value])
  {
    var ds := DidsOf(tokens).value + [SplitDid(t).value];
    var all := tokens + [t];
    forall i | 0 <= i < |all| ensures SplitDid(all[i]) == Some(ds[i]) {
      if i < |tokens| {
        assert all[i] == tokens[i];
      }
    }
    DidsOfUnique(all, ds);
  }

  /** DidsOf is determined by its contract. */
  lemma DidsOfUnique(tokens: seq<string>, ds: seq<Did>)
    requires |ds| == |tokens| && forall i :: 0 <= i < |tokens| ==> SplitDid(tokens[i]) == Some(ds[i])
    ensures DidsOf(tokens) == Some(ds)
  {
    assert forall i :: 0 <= i < |tokens| ==> ':' in tokens[i];
    var es := DidsOf(tokens).value;
    assert forall i :: 0 <= i < |tokens| ==> Some(es[i]) == Some(ds[i]);
    assert es == ds;
  }

  /** The space-joined rendering of a DID list is parsed back to the same list. */
  lemma DidListRoundTrip(ds: seq<Did>)
    requires |ds| >= 1
    requires forall i :: 0 <= i < |ds| ==>
      ':' !in ds[i].scope && ':' !in ds[i].name && ' ' !in ds[i].scope && ' ' !in ds[i].name
    ensures DidsOf(Split(Join(DidStrings(ds), " "), " ")) == Some(ds)
  {
    var ts := DidStrings(ds);
    forall i | 0 <= i < |ts| ensures (" ")[0] !in ts[i] {
      assert ts[i] == DidString(ds[i]);
    }
    SplitJoin(ts, " ");
    forall i | 0 <= i < |ts| ensures SplitDid(ts[i]) == Some(ds[i]) {
      SplitDidString(ds[i]);
    }
    DidsOfUnique(ts, ds);
  }

  function DidStrings(ds: seq<Did>): (r: seq<string>)
    ensures |r| == |ds| && forall i :: 0 <= i < |ds| ==> r[i] == DidString(ds[i])
  {
    if ds == [] then [] else [DidString(ds[0])] + DidStrings(ds[1..])
  }

  // ---------------------------------------------------------------- listDIDs

  /** The `filters` argument of the API listDIDs. */
  datatype Filters = NoFilters | FilterText(text: string) | FilterMap(m: map<string, string>)

  /** `tokens[0].strip()` and `tokens[1].strip()` of the pieces of one pair; None where indexing raises. */
  function FilterPair(tokens: seq<string>): (r: Option<(string, string)>)
    ensures r.Some? <==> |tokens| >= 2
  {
    if |tokens| < 2 then None else Some((StripSpaces(tokens[0]), StripSpaces(tokens[1])))
  }

  /** The pieces of each comma-separated pair, split on '='. */
  function PairTokens(pairs: seq<string>): (r: seq<seq<string>>)
    ensures |r| == |pairs| && forall i :: 0 <= i < |pairs| ==> r[i] == Split(pairs[i], "=")
  {
    if pairs == [] then [] else [Split(pairs[0], "=")] + PairTokens(pairs[1..])
  }

  /** A pair has at least two pieces iff it holds an '='. */
  lemma PairHasValue(pair: string)
    ensures |Split(pair, "=")| >= 2 <==> '=' in pair
  {
    SplitCharPieces(pair, '=');
  }

  /** The dictionary built by assigning each pair in turn. */
  function PairsDict(pairs: seq<seq<string>>): Option<map<string, string>>
  {
    if pairs == [] then Some(map[])
    else
      match PairsDict(pairs[..|pairs| - 1])
      case None => None
      case Some(m) =>
        match FilterPair(pairs[|pairs| - 1])
        case None => None
        case Some(kv) => Some(m[kv.0 := kv.1])
  }

  /** Parsing is rejected iff one of the pairs has no value piece. */
  lemma {:induction false} PairsDictFails(pairs: seq<seq<string>>)
    ensures PairsDict(pairs).None? <==> exists i :: 0 <= i < |pairs| && |pairs[i]| < 2
  {
    if pairs != [] {
      PairsDictFails(pairs[..|pairs| - 1]);
      ShortSnoc(pairs);
    }
  }

  /** A pair list has a short member iff its front does or its last one is. */
  lemma ShortSnoc(pairs: seq<seq<string>>)
    requires pairs != []
    ensures var init := pairs[..|pairs| - 1];
      (exists i :: 0 <= i < |pairs| && |pairs[i]| < 2)
      <==> (exists i :: 0 <= i < |init| && |init[i]| < 2) || |pairs[|pairs| - 1]| < 2
  {
    var init := pairs[..|pairs| - 1];
    if exists i :: 0 <= i < |pairs| && |pairs[i]| < 2 {
      var i :| 0 <= i < |pairs| && |pairs[i]| < 2;
      if i < |init| {
        assert init[i] == pairs[i];
      }
    }
    if exists i :: 0 <= i < |init| && |init[i]| < 2 {
      var i :| 0 <= i < |init| && |init[i]| < 2;
      assert init[i] == pairs[i];
    }
  }

  /**
    In the parsed filters, each pair's key holds the value of the last pair with
    that key.
   */
  lemma {:induction false} PairsDictLastWins(pairs: seq<seq<string>>, i: nat)
    requires PairsDict(pairs).Some? && i < |pairs|
    requires forall j :: i < j < |pairs| && |pairs[j]| >= 2 && |pairs[i]| >= 2 ==> StripSpaces(pairs[j][0]) != StripSpaces(pairs[i][0])
    ensures |pairs[i]| >= 2
    ensures StripSpaces(pairs[i][0]) in PairsDict(pairs).value
    ensures PairsDict(pairs).value[StripSpaces(pairs[i][0])] == StripSpaces(pairs[i][1])
  {
    PairsDictFails(pairs);
    var init := pairs[..|pairs| - 1];
    if i < |pairs| - 1 {
      assert forall j :: i < j < |init| ==> init[j] == pairs[j];
      assert init[i] == pairs[i];
      PairsDictLastWins(init, i);
    }
  }

  /** The filter dictionary `listDIDs` builds; None where parsing the string raises. */
  function FilterDict(filters: Filters): Option<map<string, string>>
  {
    match filters
    case NoFilters => Some(map[])
    case FilterMap(m) => Some(m)
    case FilterText(t) => PairsDict(PairTokens(Split(t, ",")))
  }

  /**
    `listDIDs(scope, filters)` of the API wrapper: the filters are parsed, the server's
    `listing` for them is queried, and each name is returned as "scope:name". None
    where the filter parse raises.
   */
  method ListDidsApi(scope: string, filters: Filters, listing: map<string, string> -> seq<string>)
    returns (r: Option<seq<string>>)
    ensures r.None? <==> FilterDict(filters).None?
    ensures r.Some? ==> |r.value| == |listing(FilterDict(filters).value)|
    ensures r.Some? ==> forall i :: 0 <= i < |r.value| ==>
      r.value[i] == DidString(Did(scope, listing(FilterDict(filters).value)[i]))
  {
    var m: map<string, string> := map[];
    match filters {
      case NoFilters =>
      case FilterMap(fm) => m := fm;
      case FilterText(t) =>
        var parsed := ParseFilterPairs(PairTokens(Split(t, ",")));
        if parsed.None? {
          return None;
        }
        m := parsed.value;
    }
    var dids := ScopedDids(scope, listing(m));
    r := Some(dids);
  }

  /** The loop assigning each `key=value` pair in turn; None where a pair has no value. */
  method ParseFilterPairs(pairs: seq<seq<string>>) returns (r: Option<map<string, string>>)
    ensures r == PairsDict(pairs)
  {
    var m: map<string, string> := map[];
    var i := 0;
    while i < |pairs|
      invariant 0 <= i <= |pairs|
      invariant PairsDict(pairs[..i]) == Some(m)
    {
      var kv := FilterPair(pairs[i]);
      if kv.None? {
        assert |pairs[i]| < 2;
        PairsDictFails(pairs);
        return None;
      }
      assert pairs[..i + 1][..i] == pairs[..i];
      m := m[kv.value.0 := kv.value.1];
      i := i + 1;
    }
    assert pairs[..i] == pairs;
    return Some(m);
  }

  /** `"{}:{}".format(scope, name)` for each listed name, in order. */
  method ScopedDids(scope: string, names: seq<string>) returns (dids: seq<string>)
    ensures |dids| == |names| && forall k :: 0 <= k < |names| ==> dids[k] == DidString(Did(scope, names[k]))
  {
    dids := [];
    var j := 0;
    while j < |names|
      invariant 0 <= j <= |names| && |dids| == j
      invariant forall k :: 0 <= k < j ==> dids[k] == DidString(Did(scope, names[k]))
    {
      dids := dids + [DidString(Did(scope, names[j]))];
      j := j + 1;
    }
  }

  /** The non-empty lines, in order. */
  function NonEmpty(lines: seq<string>): (r: seq<string>)
    ensures forall i :: 0 <= i < |r| ==> r[i] != ""
  {
    if lines == [] then []
    else (if lines[0] == "" then [] else [lines[0]]) + NonEmpty(lines[1..])
  }

  /** `listDIDs` of the CLI wrapper: a non-zero return code raises, otherwise the non-empty stdout lines. */
  method ListDidsCli(returncode: int, stdout: string) returns (r: Result<seq<string>>)
    ensures returncode != 0 <==> r.Raised?
    ensures r.Ok? ==> r.value == NonEmpty(Split(stdout, "\n"))
  {
    if returncode != 0 {
      return Raised;
    }
    var lines := Split(stdout, "\n");
    var dids: seq<string> := [];
    var i := 0;
    while i < |lines|
      invariant 0 <= i <= |lines|
      invariant dids + NonEmpty(lines[i..]) == NonEmpty(lines)
    {
      assert lines[i..][1..] == lines[i + 1..];
      if lines[i] != "" {
        dids := dids + [lines[i]];
      }
      i := i + 1;
    }
    r := Ok(dids);
  }

  /** The output of `rucio list-dids --short`: one line per DID. */
  function Lines(names: seq<string>): string
  {
    if names == [] then "" else names[0] + "\n" + Lines(names[1..])
  }

  lemma {:induction false} LinesJoin(names: seq<string>)
    ensures Lines(names) == Join(names + [""], "\n")
  {
    if names != [] {
      LinesJoin(names[1..]);
      assert names + [""] == [names[0]] + (names[1..] + [""]);
      JoinCons(names[0], names[1..] + [""], "\n");
    }
  }

  lemma {:induction false} NonEmptyKeeps(names: seq<string>)
    requires forall i :: 0 <= i < |names| ==> names[i] != ""
    ensures NonEmpty(names + [""]) == names
  {
    if names != [] {
      assert (names + [""])[1..] == names[1..] + [""];
      NonEmptyKeeps(names[1..]);
    }
  }

  /** The CLI listing of names without newlines is parsed back to exactly those names. */
  lemma CliListingRoundTrip(names: seq<string>)
    requires forall i :: 0 <= i < |names| ==> names[i] != "" && '\n' !in names[i]
    ensures NonEmpty(Split(Lines(names), "\n")) == names
  {
    LinesJoin(names);
    var parts := names + [""];
    assert forall i :: 0 <= i < |parts| ==> ("\n")[0] !in parts[i];
    SplitJoin(parts, "\n");
    NonEmptyKeeps(names);
  }

  // ---------------------------------------------------------------- CLI addRule

  /** What a `rucio add-rule` command line asks for. */
  datatype RuleRequest = RuleRequest(
    did: string, copies: string, dst: string,
    lifetime: Option<string>, activity: Option<string>, src: Option<string>)

  /** The value following `flag` among flag/value pairs. */
  function OptValue(opts: seq<string>, flag: string): Option<string>
    decreases |opts|
  {
    if |opts| < 2 then None
    else if opts[0] == flag then Some(opts[1])
    else OptValue(opts[2..], flag)
  }

  /** A reading of a `rucio add-rule [flag value]... did copies dst` command line. */
  function ParseAddRuleArgv(argv: seq<string>): Option<RuleRequest>
  {
    var n := |argv|;
    if n < 5 || argv[0] != "rucio" || argv[1] != "add-rule" || (n - 5) % 2 != 0 then None
    else
      var opts := argv[2..n - 3];
      Some(RuleRequest(argv[n - 3], argv[n - 2], argv[n - 1],
        OptValue(opts, "--lifetime"), OptValue(opts, "--activity"),
        OptValue(opts, "--source-replica-expression")))
  }

  /** `str(lifetime)` when `lifetime` is truthy. */
  function LifetimeArg(lifetime: Option<int>): Option<string>
  {
    if lifetime.Some? && lifetime.value != 0 then Some(IntToString(lifetime.value)) else None
  }

  /** The option's text when it is truthy. */
  function TextArg(o: Option<string>): Option<string>
  {
    if o.Some? && o.value != "" then o else None
  }

  function FlagArgs(flag: string, v: Option<string>): (r: seq<string>)
    ensures |r| == if v.Some? then 2 else 0
  {
    if v.Some? then [flag, v.value] else []
  }

  lemma OptValueSkip(f: string, v: Option<string>, rest: seq<string>, flag: string)
    requires f != flag
    ensures OptValue(FlagArgs(f, v) + rest, flag) == OptValue(rest, flag)
  {
    if v.Some? {
      assert (FlagArgs(f, v) + rest)[2..] == rest;
    } else {
      assert FlagArgs(f, v) + rest == rest;
    }
  }

  lemma OptValueFlags(x: string, y: string, z: string, u: Option<string>, v: Option<string>, w: Option<string>)
    requires x != y && y != z && x != z
    ensures var all := FlagArgs(x, u) + FlagArgs(y, v) + FlagArgs(z, w);
      OptValue(all, x) == u && OptValue(all, y) == v && OptValue(all, z) == w
  {
    var a, b, c := FlagArgs(x, u), FlagArgs(y, v), FlagArgs(z, w);
    assert a + b + c == a + (b + c);
    assert c == c + [];
    OptValueSkip(z, w, [], x);
    OptValueSkip(z, w, [], y);
    OptValueSkip(y, v, c, x);
    OptValueSkip(x, u, b + c, y);
    OptValueSkip(x, u, b + c, z);
    OptValueSkip(y, v, c, z);
    if u.None? {
      assert a + (b + c) == b + c;
    }
    if v.None? {
      assert b + c == c;
    }
  }

  /**
    The argv of the CLI `addRule`: `rucio add-rule`, then each truthy option with its
    flag in the order lifetime, activity, source replica expression, then did, copies, dst.
   */
  method AddRuleArgv(did: string, copies: int, dst: string,
                     lifetime: Option<int>, activity: Option<string>, src: Option<string>)
    returns (cmd: seq<string>)
    ensures ParseAddRuleArgv(cmd) == Some(RuleRequest(did, IntToString(copies), dst,
      LifetimeArg(lifetime), TextArg(activity), TextArg(src)))
    ensures cmd[..2] == ["rucio", "add-rule"] && cmd[|cmd| - 3..] == [did, IntToString(copies), dst]
    ensures |cmd| == 5 + 2 * ((if LifetimeArg(lifetime).Some? then 1 else 0)
      + (if TextArg(activity).Some? then 1 else 0) + (if TextArg(src).Some? then 1 else 0))
  {
    var a := FlagArgs("--lifetime", LifetimeArg(lifetime));
    var b := FlagArgs("--activity", TextArg(activity));
    var c := FlagArgs("--source-replica-expression", TextArg(src));
    cmd := ["rucio", "add-rule"];
    if lifetime.Some? && lifetime.value != 0 {
      cmd := cmd + ["--lifetime", IntToString(lifetime.value)];
    }
    assert cmd == ["rucio", "add-rule"] + a;
    if activity.Some? && activity.value != "" {
      cmd := cmd + ["--activity", activity.value];
    }
    assert cmd == ["rucio", "add-rule"] + a + b;
    if src.Some? && src.value != "" {
      cmd := cmd + ["--source-replica-expression", src.value];
    }
    assert cmd == ["rucio", "add-rule"] + a + b + c;
    assert cmd == ["rucio", "add-rule"] + (a + b + c);
    cmd := cmd + [did, IntToString(copies), dst];
    ParseArgv(a + b + c, did, IntToString(copies), dst);
    OptValueFlags("--lifetime", "--activity", "--source-replica-expression",
      LifetimeArg(lifetime), TextArg(activity), TextArg(src));
  }

  /** A command line of the add-rule shape is read back as its options and its last three words. */
  lemma ParseArgv(opts: seq<string>, did: string, copies: string, dst: string)
    requires |opts| % 2 == 0
    ensures var argv := ["rucio", "add-rule"] + opts + [did, copies, dst];
      ParseAddRuleArgv(argv) == Some(RuleRequest(did, copies, dst, OptValue(opts, "--lifetime"),
        OptValue(opts, "--activity"), OptValue(opts, "--source-replica-expression")))
      && argv[..2] == ["rucio", "add-rule"] && argv[|argv| - 3..] == [did, copies, dst]
  {
    var argv := ["rucio", "add-rule"] + opts + [did, copies, dst];
    assert argv[2..|argv| - 3] == opts;
  }

  /** Running a CLI command: a non-zero return code raises. */
  function CheckReturnCode<T>(returncode: int, value: T): (r: Result<T>)
    ensures r.Ok? <==> returncode == 0
    ensures r.Ok? ==> r.value == value
  {
    if returncode != 0 then Raised else Ok(value)
  }

  // ---------------------------------------------------------------- erase

  function RuleIds(rules: seq<Rule>): set<string>
  {
    set r | r in rules :: r.id
  }

  /**
    `erase(did, purgeReplicas)`: the rule ids of the DID are collected into a set, and one
    `delete_replication_rule` is issued per distinct id, in the set's order. Returns the
    ids deleted, in order.
   */
  method Erase(g: Grid, did: string) returns (r: Result<seq<string>>)
    ensures r.Raised? <==> ListReplicationRules(g, did).Raised?
    ensures r.Ok? ==> (set x | x in r.value) == RuleIds(ListReplicationRules(g, did).value)
    ensures r.Ok? ==> forall i, j :: 0 <= i < j < |r.value| ==> r.value[i] != r.value[j]
  {
    var listed := ListReplicationRules(g, did);
    if listed.Raised? {
      return Raised;
    }
    var rules := listed.value;
    var rids: set<string> := {};
    var i := 0;
    while i < |rules|
      invariant 0 <= i <= |rules|
      invariant rids == RuleIds(rules[..i])
    {
      TakeSnoc(rules, i);
      rids := rids + {rules[i].id};
      i := i + 1;
    }
    assert rules[..i] == rules;
    var todo := rids;
    var deleted: seq<string> := [];
    while todo != {}
      invariant todo <= rids
      invariant (set x | x in deleted) == rids - todo
      invariant forall a, b :: 0 <= a < b < |deleted| ==> deleted[a] != deleted[b]
      decreases todo
    {
      var rid :| rid in todo;
      assert rid !in deleted;
      assert (set x | x in deleted + [rid]) == (set x | x in deleted) + {rid};
      deleted := deleted + [rid];
      todo := todo - {rid};
    }
    r := Ok(deleted);
  }
}
