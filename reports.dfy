/**
  What the two daily-report tasks share: the per-RSE document counts they query, the
  warning rule, the text of a count line, the Slack block kinds and the posting of one
  payload per Slack webhook.
 */
module Reports {
  import opened Wrappers
  import opened Seqs
  import opened Text
  import opened Values
  import opened EsStore

  /** The state flags counted for every RSE, in query order. */
  const Terms: seq<string> := ["is_submitted", "is_stuck", "is_replicating", "is_done"]

  /** The fixed part of every count query. */
  datatype Query = Query(index: string, maxRows: nat, task: string, gte: int, lte: int)

  /** The two roles an RSE plays in a rule document, and the document field naming it in that role. */
  datatype Side = FromRse | ToRse

  function FieldOf(side: Side): (f: string)
    ensures f == "from_rse" || f == "to_rse"
  {
    match side
    case FromRse => "from_rse"
    case ToRse => "to_rse"
  }

  /** `{"term": {term: 1}}`, the task name, the RSE in the role `side` and the creation window. */
  function RoleFilters(q: Query, term: string, side: Side, rse: string): seq<Filter>
  {
    [Term(term, Int(1)), Term("task_name", Str(q.task)), Term(FieldOf(side), Str(rse)), Range("created_at", q.gte, q.lte)]
  }

  lemma RoleFiltersMean(d: Doc, q: Query, term: string, side: Side, rse: string)
    ensures Matches(d, RoleFilters(q, term, side, rse)) <==>
      (term in d && d[term] == Int(1))
      && ("task_name" in d && d["task_name"] == Str(q.task))
      && (FieldOf(side) in d && d[FieldOf(side)] == Str(rse))
      && ("created_at" in d && d["created_at"].Time? && q.gte <= d["created_at"].secs <= q.lte)
  {
    var fs := RoleFilters(q, term, side, rse);
    if Matches(d, fs) {
      assert Holds(d, fs[0]) && Holds(d, fs[1]) && Holds(d, fs[2]) && Holds(d, fs[3]);
    }
  }

  /** `len(res['hits']['hits'])` of one count query: the matches, capped at `max_rows`. */
  function Count(docs: map<DocKey, Doc>, q: Query, term: string, side: Side, rse: string): nat
  {
    Min(q.maxRows, |MatchingKeys(docs, q.index, RoleFilters(q, term, side, rse))|)
  }

  /** A count never exceeds `max_rows`, and is exact below it. */
  lemma CountBounds(docs: map<DocKey, Doc>, q: Query, term: string, side: Side, rse: string)
    ensures Count(docs, q, term, side, rse) <= q.maxRows
    ensures Count(docs, q, term, side, rse) <= |MatchingKeys(docs, q.index, RoleFilters(q, term, side, rse))|
    ensures Count(docs, q, term, side, rse) < q.maxRows ==>
      Count(docs, q, term, side, rse) == |MatchingKeys(docs, q.index, RoleFilters(q, term, side, rse))|
  {
  }

  /** The four counts of one RSE in one role (the `nDocsAs...[rse]` dictionary, keyed by term). */
  datatype Tally = Tally(submitted: nat, stuck: nat, replicating: nat, done: nat)

  /** The count stored under a term. */
  function At(t: Tally, term: string): nat
  {
    if term == "is_submitted" then t.submitted
    else if term == "is_stuck" then t.stuck
    else if term == "is_replicating" then t.replicating
    else t.done
  }

  /** `t[term] = n` for one of the four terms. */
  function Set(t: Tally, term: string, n: nat): (r: Tally)
    requires term in Terms
    ensures At(r, term) == n
    ensures forall u :: u in Terms && u != term ==> At(r, u) == At(t, u)
  {
    if term == "is_submitted" then t.(submitted := n)
    else if term == "is_stuck" then t.(stuck := n)
    else if term == "is_replicating" then t.(replicating := n)
    else t.(done := n)
  }

  function TallyOf(docs: map<DocKey, Doc>, q: Query, side: Side, rse: string): Tally
  {
    Tally(Count(docs, q, "is_submitted", side, rse), Count(docs, q, "is_stuck", side, rse),
          Count(docs, q, "is_replicating", side, rse), Count(docs, q, "is_done", side, rse))
  }

  /** The first `n` terms counted so far. */
  predicate TalliedUpTo(t: Tally, docs: map<DocKey, Doc>, q: Query, side: Side, rse: string, n: nat)
    requires n <= |Terms|
  {
    forall j :: 0 <= j < n ==> At(t, Terms[j]) == Count(docs, q, Terms[j], side, rse)
  }

  lemma TallyStep(t: Tally, docs: map<DocKey, Doc>, q: Query, side: Side, rse: string, i: nat, n: nat)
    requires i < |Terms| && TalliedUpTo(t, docs, q, side, rse, i)
    requires n == Count(docs, q, Terms[i], side, rse)
    ensures TalliedUpTo(Set(t, Terms[i], n), docs, q, side, rse, i + 1)
  {
    assert forall j :: 0 <= j < i ==> Terms[j] != Terms[i] && Terms[j] in Terms;
  }

  lemma TalliedAll(t: Tally, docs: map<DocKey, Doc>, q: Query, side: Side, rse: string)
    requires TalliedUpTo(t, docs, q, side, rse, |Terms|)
    ensures t == TallyOf(docs, q, side, rse)
  {
    assert Terms[0] == "is_submitted" && Terms[1] == "is_stuck" && Terms[2] == "is_replicating" && Terms[3] == "is_done";
    assert At(t, Terms[0]) == t.submitted && At(t, Terms[1]) == t.stuck;
    assert At(t, Terms[2]) == t.replicating && At(t, Terms[3]) == t.done;
  }

  /**
    The four searches of one RSE in both roles, in query order: source then destination
    for each term. A failing search ends the process.
   */
  method CountRoles(store: Store, q: Query, rse: string) returns (ok: bool, src: Tally, dst: Tally)
    ensures ok == !store.searchFails
    ensures ok ==> src == TallyOf(store.docs, q, FromRse, rse) && dst == TallyOf(store.docs, q, ToRse, rse)
  {
    src, dst := Tally(0, 0, 0, 0), Tally(0, 0, 0, 0);
    if store.searchFails {
      return false, src, dst;
    }
    var i := 0;
    while i < |Terms|
      invariant 0 <= i <= |Terms|
      invariant !store.searchFails
      invariant TalliedUpTo(src, store.docs, q, FromRse, rse, i)
      invariant TalliedUpTo(dst, store.docs, q, ToRse, rse, i)
    {
      var term := Terms[i];
      var s := SearchOrExit(store, q.index, RoleFilters(q, term, FromRse, rse), q.maxRows);
      var d := SearchOrExit(store, q.index, RoleFilters(q, term, ToRse, rse), q.maxRows);
      TallyStep(src, store.docs, q, FromRse, rse, i, |s.value|);
      TallyStep(dst, store.docs, q, ToRse, rse, i, |d.value|);
      src := Set(src, term, |s.value|);
      dst := Set(dst, term, |d.value|);
      i := i + 1;
    }
    TalliedAll(src, store.docs, q, FromRse, rse);
    TalliedAll(dst, store.docs, q, ToRse, rse);
    ok := true;
  }

  /** `":warning:"` when more documents are stuck than the threshold allows or none was submitted. */
  function Symbol(stuck: nat, submitted: nat, threshold: int): string
  {
    if stuck > threshold || submitted == 0 then ":warning:" else ":ok:"
  }

  /** The two symbols are distinct and tab-free, so a line tells which rule applied. */
  lemma SymbolMeans(stuck: nat, submitted: nat, threshold: int)
    ensures Symbol(stuck, submitted, threshold) == ":warning:" <==> stuck > threshold || submitted == 0
    ensures Symbol(stuck, submitted, threshold) == ":ok:" <==> !(stuck > threshold || submitted == 0)
    ensures '\t' !in Symbol(stuck, submitted, threshold)
  {
    assert ":warning:" != ":ok:" by {
      assert ":warning:"[1] != ":ok:"[1];
    }
  }

  /** `'{:4d}'.format(n)`: the decimal digits, right-aligned in a field of at least four characters. */
  function Pad4(n: nat): string
  {
    var d := NatToString(n);
    if |d| < 4 then Spaces(4 - |d|) + d else d
  }

  lemma Pad4Shape(n: nat)
    ensures |Pad4(n)| == if |NatToString(n)| < 4 then 4 else |NatToString(n)|
    ensures Pad4(n)[|Pad4(n)| - |NatToString(n)|..] == NatToString(n)
    ensures forall i :: 0 <= i < |Pad4(n)| - |NatToString(n)| ==> Pad4(n)[i] == ' '
  {
  }

  lemma Pad4NoTab(n: nat)
    ensures '\t' !in Pad4(n)
  {
    Pad4Shape(n);
    var s, d := Pad4(n), NatToString(n);
    forall i | 0 <= i < |s| ensures s[i] != '\t' {
      if i >= |s| - |d| {
        assert s[i] == d[i - (|s| - |d|)];
      }
    }
  }

  /** One cell of a count line: an emoji and the padded count. */
  function Cell(emoji: string, n: nat): string
  {
    emoji + Pad4(n)
  }

  /** One count line: the symbol, the role label, then submitted, done, stuck and replicating. */
  function Line(symbol: string, role: string, submitted: nat, done: nat, stuck: nat, replicating: nat): string
  {
    symbol + "\t" + role + "\t" + Cell(":arrow_up: ", submitted) + "\t" + Cell(":heavy_check_mark: ", done)
    + "\t" + Cell(":x: ", stuck) + "\t" + Cell(":arrow_forward: ", replicating)
  }

  /**
    Read back on tabs, a line is its symbol, the pieces of its role label, then the submitted,
    done, stuck and replicating cells in that order.
   */
  lemma LineCells(symbol: string, role: string, submitted: nat, done: nat, stuck: nat, replicating: nat)
    requires '\t' !in symbol
    ensures Split(Line(symbol, role, submitted, done, stuck, replicating), "\t")
      == [symbol] + Split(role, "\t")
         + [Cell(":arrow_up: ", submitted), Cell(":heavy_check_mark: ", done), Cell(":x: ", stuck),
            Cell(":arrow_forward: ", replicating)]
  {
    CellNoTab(":arrow_up: ", submitted);
    CellNoTab(":heavy_check_mark: ", done);
    CellNoTab(":x: ", stuck);
    CellNoTab(":arrow_forward: ", replicating);
    AppendCells(symbol + "\t" + role, Cell(":arrow_up: ", submitted), Cell(":heavy_check_mark: ", done),
                Cell(":x: ", stuck), Cell(":arrow_forward: ", replicating));
    SplitCons(symbol, "\t", role);
  }

  lemma CellNoTab(emoji: string, n: nat)
    requires '\t' !in emoji
    ensures '\t' !in Cell(emoji, n)
  {
    Pad4NoTab(n);
  }

  lemma AppendTwo(a: string, c1: string, c2: string)
    requires '\t' !in c1 && '\t' !in c2
    ensures Split(a + "\t" + c1 + "\t" + c2, "\t") == Split(a, "\t") + [c1, c2]
  {
    SplitAppendPiece(a + "\t" + c1, '\t', c2);
    SplitAppendPiece(a, '\t', c1);
    assert Split(a, "\t") + [c1] + [c2] == Split(a, "\t") + [c1, c2];
  }

  lemma AppendCells(a: string, c1: string, c2: string, c3: string, c4: string)
    requires '\t' !in c1 && '\t' !in c2 && '\t' !in c3 && '\t' !in c4
    ensures Split(a + "\t" + c1 + "\t" + c2 + "\t" + c3 + "\t" + c4, "\t") == Split(a, "\t") + [c1, c2, c3, c4]
  {
    AppendTwo(a + "\t" + c1 + "\t" + c2, c3, c4);
    AppendTwo(a, c1, c2);
    assert Split(a, "\t") + [c1, c2] + [c3, c4] == Split(a, "\t") + [c1, c2, c3, c4];
  }

  /** The line of one role of an RSE. */
  function RoleLine(role: string, t: Tally, threshold: int): string
  {
    Line(Symbol(t.stuck, t.submitted, threshold), role, t.submitted, t.done, t.stuck, t.replicating)
  }

  /**
    The text of a markdown section. A count line is kept as its parts (role label, tally,
    threshold); `Markdown` renders it as the line Slack shows.
   */
  datatype Markup = Plain(s: string) | CountLine(role: string, t: Tally, threshold: int)

  function Markdown(x: Markup): string
  {
    match x
    case Plain(s) => s
    case CountLine(role, t, threshold) => RoleLine(role, t, threshold)
  }

  /** A Slack block: a plain-text header, a markdown section or a divider. */
  datatype Block = Header(text: string) | Section(body: Markup) | Divider

  /** The title, the threshold and a divider that open every report. */
  function Head(title: string, threshold: int): seq<Block>
  {
    [Header(title), Section(Plain("Stuck Threshold (%): " + IntToString(threshold))), Divider]
  }

  /** The blocks of consecutive groups, one group after another. */
  function Concat(gs: seq<seq<Block>>): seq<Block>
    decreases |gs|
  {
    if gs == [] then [] else Concat(gs[..|gs| - 1]) + gs[|gs| - 1]
  }

  lemma ConcatAppend(gs: seq<seq<Block>>, g: seq<Block>)
    ensures Concat(gs + [g]) == Concat(gs) + g
  {
    assert (gs + [g])[..|gs|] == gs;
  }

  /** The blocks of two runs of groups, one after the other. */
  lemma {:induction false} ConcatJoin(gs: seq<seq<Block>>, hs: seq<seq<Block>>)
    ensures Concat(gs + hs) == Concat(gs) + Concat(hs)
    decreases |hs|
  {
    if hs == [] {
      assert gs + hs == gs;
    } else {
      var n := |hs| - 1;
      assert (gs + hs)[..|gs + hs| - 1] == gs + hs[..n];
      assert (gs + hs)[|gs + hs| - 1] == hs[n];
      ConcatJoin(gs, hs[..n]);
      assert Concat(gs + hs) == Concat(gs + hs[..n]) + hs[n];
      assert Concat(hs) == Concat(hs[..n]) + hs[n];
    }
  }

  lemma ConcatSnoc(gs: seq<seq<Block>>, i: nat)
    requires i < |gs|
    ensures Concat(gs[..i + 1]) == Concat(gs[..i]) + gs[i]
  {
    assert gs[..i + 1][..i] == gs[..i];
  }

  /** Groups of four blocks each: group `i` occupies positions `4 * i` up to `4 * i + 4`. */
  lemma {:induction false} ConcatLayout(gs: seq<seq<Block>>)
    requires forall i :: 0 <= i < |gs| ==> |gs[i]| == 4
    ensures |Concat(gs)| == 4 * |gs|
    ensures forall i :: 0 <= i < |gs| ==> Concat(gs)[4 * i .. 4 * i + 4] == gs[i]
    decreases |gs|
  {
    if gs != [] {
      var k := |gs| - 1;
      var init := gs[..k];
      ConcatLayout(init);
      var c := Concat(init);
      assert Concat(gs) == c + gs[k];
      forall i | 0 <= i < |gs|
        ensures (c + gs[k])[4 * i .. 4 * i + 4] == gs[i]
      {
        if i < k {
          assert (c + gs[k])[4 * i .. 4 * i + 4] == c[4 * i .. 4 * i + 4];
          assert init[i] == gs[i];
        } else {
          assert (c + gs[k])[4 * i .. 4 * i + 4] == gs[k];
        }
      }
    }
  }

  /** Three opening blocks followed by groups of four: where each group sits. */
  lemma HeadThenGroups(h: seq<Block>, gs: seq<seq<Block>>)
    requires |h| == 3
    requires forall i :: 0 <= i < |gs| ==> |gs[i]| == 4
    ensures |h + Concat(gs)| == 3 + 4 * |gs|
    ensures (h + Concat(gs))[..3] == h
    ensures forall i :: 0 <= i < |gs| ==> (h + Concat(gs))[3 + 4 * i .. 3 + 4 * i + 4] == gs[i]
  {
    ConcatLayout(gs);
    forall i | 0 <= i < |gs|
      ensures (h + Concat(gs))[3 + 4 * i .. 3 + 4 * i + 4] == gs[i]
    {
      assert (h + Concat(gs))[3 + 4 * i .. 3 + 4 * i + 4] == Concat(gs)[4 * i .. 4 * i + 4];
    }
  }

  datatype Webhook = Webhook(kind: string, url: string)

  /** One `requests.post(url, json=body)`: the daily reports send blocks, the alarm task attachments. */
  datatype Post<B> = Post(url: string, body: B)

  /** The webhooks of type `slack`, in configuration order. */
  function Slack(ws: seq<Webhook>): seq<Webhook>
  {
    if ws == [] then []
    else if ws[0].kind == "slack" then [ws[0]] + Slack(ws[1..])
    else Slack(ws[1..])
  }

  /** Exactly the Slack webhooks: no more of them than webhooks, each one Slack and configured, and none missed. */
  lemma {:induction false} SlackMeans(ws: seq<Webhook>)
    ensures |Slack(ws)| <= |ws|
    ensures forall i :: 0 <= i < |Slack(ws)| ==> Slack(ws)[i].kind == "slack" && Slack(ws)[i] in ws
    ensures forall w :: w in ws && w.kind == "slack" ==> w in Slack(ws)
  {
    if ws != [] {
      SlackMeans(ws[1..]);
      forall w | w in ws && w.kind == "slack" ensures w in Slack(ws) {
        if w != ws[0] {
          assert w in ws[1..];
        }
      }
    }
  }

  /** One post of the same payload to each Slack webhook, in order. */
  function SlackPosts<B>(ws: seq<Webhook>, blocks: B): seq<Post<B>>
  {
    if ws == [] then []
    else if ws[0].kind == "slack" then [Post(ws[0].url, blocks)] + SlackPosts(ws[1..], blocks)
    else SlackPosts(ws[1..], blocks)
  }

  /** Exactly one post per Slack webhook, in order, each with the same payload. */
  lemma {:induction false} SlackPostsMeans<B>(ws: seq<Webhook>, blocks: B)
    ensures |SlackPosts(ws, blocks)| == |Slack(ws)|
    ensures forall i :: 0 <= i < |Slack(ws)| ==> SlackPosts(ws, blocks)[i] == Post(Slack(ws)[i].url, blocks)
  {
    if ws != [] {
      SlackPostsMeans(ws[1..], blocks);
    }
  }

  /** Posting within a loop over the webhooks: the first `i` webhooks' posts, plus the next one's. */
  lemma SlackPostsStep<B>(ws: seq<Webhook>, i: nat, blocks: B)
    requires i < |ws|
    ensures SlackPosts(ws[..i + 1], blocks)
      == SlackPosts(ws[..i], blocks) + (if ws[i].kind == "slack" then [Post(ws[i].url, blocks)] else [])
    decreases i
  {
    if i > 0 {
      assert ws[..i + 1][1..] == ws[1..][..i];
      assert ws[..i][1..] == ws[1..][..i - 1];
      SlackPostsStep(ws[1..], i - 1, blocks);
    }
  }

  /** The Slack webhooks among the first `i + 1`: those among the first `i`, plus the next one if it is Slack. */
  lemma SlackStep(ws: seq<Webhook>, i: nat)
    requires i < |ws|
    ensures Slack(ws[..i + 1]) == Slack(ws[..i]) + (if ws[i].kind == "slack" then [ws[i]] else [])
    decreases i
  {
    if i > 0 {
      assert ws[..i + 1][1..] == ws[1..][..i];
      assert ws[..i][1..] == ws[1..][..i - 1];
      SlackStep(ws[1..], i - 1);
    }
  }

  /** `k` copies of one value. */
  function Copies<T>(x: T, k: nat): (r: seq<T>)
    ensures |r| == k && forall c :: 0 <= c < k ==> r[c] == x
  {
    seq(k, _ => x)
  }

  /** Copy `c` of entry `i`, in a run of `k` copies per entry. */
  function Slot(k: nat, i: nat, c: nat): nat
  {
    k * i + c
  }

  lemma SlotBelow(k: nat, i: nat, c: nat, n: nat)
    requires i < n && c < k
    ensures Slot(k, i, c) < k * n
  {
    assert k * i + c < k * i + k == k * (i + 1);
    assert k * (i + 1) <= k * n;
  }

  /** Where copy `c` of item `i` sits once `k` copies of one more item are appended. */
  lemma CopiesSnocAt<T>(xs: seq<T>, x: T, k: nat, n: nat, i: nat, c: nat)
    requires |xs| == k * n && i <= n && c < k
    ensures Slot(k, i, c) < k * (n + 1) && Slot(k, i, c) < |xs + Copies(x, k)|
    ensures i < n ==> Slot(k, i, c) < |xs| && (xs + Copies(x, k))[Slot(k, i, c)] == xs[Slot(k, i, c)]
    ensures i == n ==> (xs + Copies(x, k))[Slot(k, i, c)] == x
  {
    SlotBelow(k, i, c, n + 1);
    if i < n {
      SlotBelow(k, i, c, n);
    } else {
      assert Slot(k, i, c) == |xs| + c;
    }
  }

  lemma MulNone(k: nat, m: nat)
    requires m == 0
    ensures k * m == 0
  {
  }

  /** One more entry of `k` copies. */
  lemma MulLast(k: nat, m: nat)
    requires m >= 1
    ensures k * m == k * (m - 1) + k
  {
  }
}
