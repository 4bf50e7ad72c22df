/**
  The older daily report task: the same counts and warning rule as `ReportDaily`, for the
  fixed task name `test-replication`, with the RSE blocks appended once per Slack webhook
  to a single list that every Slack webhook then receives.
 */
module ReportLegacy {
  import opened Wrappers
  import opened Seqs
  import opened Values
  import opened EsStore
  import opened Tasks
  import opened Reports

  /** A search bound as configured (a date-math string) and the instant the index resolves it to. */
  datatype Bound = Bound(text: string, at: int)

  /** The task's keyword arguments; None stands for a missing key. */
  datatype Kwargs = Kwargs(databaseType: Option<string>, uri: Option<string>, index: Option<string>,
                           searchRangeLte: Option<Bound>, searchRangeGte: Option<Bound>, maxRows: Option<nat>,
                           threshold: Option<int>, rses: Option<seq<string>>, webhooks: Option<seq<Webhook>>)

  predicate Complete(a: Kwargs)
  {
    a.databaseType.Some? && a.uri.Some? && a.index.Some? && a.searchRangeLte.Some? && a.searchRangeGte.Some?
    && a.maxRows.Some? && a.threshold.Some? && a.rses.Some? && a.webhooks.Some?
  }

  /** Every count of this version is for the replication test task. */
  const TaskName: string := "test-replication"

  function QueryOf(a: Kwargs): (q: Query)
    requires Complete(a)
    ensures q.task == TaskName
  {
    Query(a.index.value, a.maxRows.value, TaskName, a.searchRangeGte.value.at, a.searchRangeLte.value.at)
  }

  /** The dashboard link of one RSE over the configured window. */
  function DashboardUrl(gte: string, lte: string, rse: string): string
  {
    "https://monit-grafana.cern.ch/d/O8MinE5Gk/es-ska-rmb?" + "orgId=51&from=" + gte + "&to=" + lte + "&var-rses=" + rse
  }

  /** The blocks of one RSE: its linked name, its source line, its destination line, a divider. */
  function RseBlocks(gte: string, lte: string, rse: string, src: Tally, dst: Tally, threshold: int): seq<Block>
  {
    [Section(Plain("*<" + DashboardUrl(gte, lte, rse) + "|" + rse + ">*")),
     Section(CountLine("As Source\t\t", src, threshold)),
     Section(CountLine("As Destination", dst, threshold)), Divider]
  }

  /** The tallies of each RSE in one role, in configuration order. */
  function Tallies(docs: map<DocKey, Doc>, q: Query, side: Side, rses: seq<string>): (r: seq<Tally>)
    ensures |r| == |rses|
  {
    seq(|rses|, j requires 0 <= j < |rses| => TallyOf(docs, q, side, rses[j]))
  }

  lemma TalliesAt(docs: map<DocKey, Doc>, q: Query, side: Side, rses: seq<string>)
    ensures forall j :: 0 <= j < |rses| ==> Tallies(docs, q, side, rses)[j] == TallyOf(docs, q, side, rses[j])
  {
  }

  /** The groups of the RSEs in order, each repeated once per Slack webhook, from their tallies. */
  function Groups(gte: string, lte: string, threshold: int, rses: seq<string>, srcs: seq<Tally>, dsts: seq<Tally>, k: nat)
    : seq<seq<Block>>
    requires |srcs| == |rses| && |dsts| == |rses|
    decreases |rses|
  {
    if rses == [] then []
    else
      var n := |rses| - 1;
      Groups(gte, lte, threshold, rses[..n], srcs[..n], dsts[..n], k)
      + Copies(RseBlocks(gte, lte, rses[n], srcs[n], dsts[n], threshold), k)
  }

  /** The one list every Slack webhook receives, with `k` Slack webhooks configured. */
  function Report(docs: map<DocKey, Doc>, q: Query, date: string, gte: string, lte: string, threshold: int,
                  rses: seq<string>, k: nat): seq<Block>
  {
    Head("Daily Report (" + date + ")", threshold)
    + Concat(Groups(gte, lte, threshold, rses, Tallies(docs, q, FromRse, rses), Tallies(docs, q, ToRse, rses), k))
  }

  lemma {:induction false} GroupsAt(gte: string, lte: string, threshold: int, rses: seq<string>,
                                    srcs: seq<Tally>, dsts: seq<Tally>, k: nat)
    requires |srcs| == |rses| && |dsts| == |rses|
    ensures |Groups(gte, lte, threshold, rses, srcs, dsts, k)| == k * |rses|
    ensures forall m :: 0 <= m < k * |rses| ==> |Groups(gte, lte, threshold, rses, srcs, dsts, k)[m]| == 4
    ensures forall i, c :: 0 <= i < |rses| && 0 <= c < k ==>
      Slot(k, i, c) < k * |rses|
      && Groups(gte, lte, threshold, rses, srcs, dsts, k)[Slot(k, i, c)]
         == RseBlocks(gte, lte, rses[i], srcs[i], dsts[i], threshold)
    decreases |rses|
  {
    if rses == [] {
      MulNone(k, |rses|);
    } else {
      var n := |rses| - 1;
      GroupsAt(gte, lte, threshold, rses[..n], srcs[..n], dsts[..n], k);
      var g0 := Groups(gte, lte, threshold, rses[..n], srcs[..n], dsts[..n], k);
      var last := Copies(RseBlocks(gte, lte, rses[n], srcs[n], dsts[n], threshold), k);
      assert Groups(gte, lte, threshold, rses, srcs, dsts, k) == g0 + last;
      MulLast(k, |rses|);
      forall i, c | 0 <= i < |rses| && 0 <= c < k
        ensures Slot(k, i, c) < k * |rses|
        ensures (g0 + last)[Slot(k, i, c)] == RseBlocks(gte, lte, rses[i], srcs[i], dsts[i], threshold)
      {
        SlotBelow(k, i, c, |rses|);
        if i < n {
          SlotBelow(k, i, c, n);
          assert rses[..n][i] == rses[i] && srcs[..n][i] == srcs[i] && dsts[..n][i] == dsts[i];
        } else {
          assert i == n;
        }
      }
    }
  }

  /**
    Three opening blocks, then for each RSE in order `k` copies of its four blocks (copy `c`
    of RSE `i` at group `Slot(k, i, c)`), so the list holds `3 + 4·k·|rses|` blocks.
   */
  lemma ReportLayout(docs: map<DocKey, Doc>, q: Query, date: string, gte: string, lte: string, threshold: int,
                     rses: seq<string>, k: nat)
    ensures |Report(docs, q, date, gte, lte, threshold, rses, k)| == 3 + 4 * (k * |rses|)
    ensures Report(docs, q, date, gte, lte, threshold, rses, k)[..3] == Head("Daily Report (" + date + ")", threshold)
    ensures forall i, c :: 0 <= i < |rses| && 0 <= c < k ==>
      3 + 4 * Slot(k, i, c) + 4 <= 3 + 4 * (k * |rses|)
      && Report(docs, q, date, gte, lte, threshold, rses, k)[3 + 4 * Slot(k, i, c) .. 3 + 4 * Slot(k, i, c) + 4]
         == RseBlocks(gte, lte, rses[i], TallyOf(docs, q, FromRse, rses[i]), TallyOf(docs, q, ToRse, rses[i]), threshold)
  {
    var srcs, dsts := Tallies(docs, q, FromRse, rses), Tallies(docs, q, ToRse, rses);
    TalliesAt(docs, q, FromRse, rses);
    TalliesAt(docs, q, ToRse, rses);
    GroupsAt(gte, lte, threshold, rses, srcs, dsts, k);
    var gs := Groups(gte, lte, threshold, rses, srcs, dsts, k);
    HeadThenGroups(Head("Daily Report (" + date + ")", threshold), gs);
  }

  lemma CopiesStep(g: seq<Block>, m: nat)
    ensures Concat(Copies(g, m + 1)) == Concat(Copies(g, m)) + g
  {
    assert Copies(g, m + 1) == Copies(g, m) + [g];
    ConcatAppend(Copies(g, m), g);
  }

  /** The webhook loop that appends one RSE's blocks once per Slack webhook. */
  method AppendPerSlack(blocks: seq<Block>, g: seq<Block>, ws: seq<Webhook>) returns (out: seq<Block>)
    ensures out == blocks + Concat(Copies(g, |Slack(ws)|))
  {
    out := blocks;
    var w := 0;
    ghost var m := 0;
    while w < |ws|
      invariant 0 <= w <= |ws|
      invariant m == |Slack(ws[..w])|
      invariant out == blocks + Concat(Copies(g, m))
    {
      SlackStep(ws, w);
      if ws[w].kind == "slack" {
        CopiesStep(g, m);
        out := out + g;
        m := m + 1;
      }
      w := w + 1;
    }
    assert ws[..w] == ws;
  }

  /** One RSE: its counts, then its blocks once per Slack webhook. */
  method AppendRse(store: Store, q: Query, gte: string, lte: string, threshold: int, rse: string, ws: seq<Webhook>,
                   blocks: seq<Block>)
    returns (ok: bool, src: Tally, dst: Tally, out: seq<Block>)
    ensures ok == !store.searchFails
    ensures ok ==> src == TallyOf(store.docs, q, FromRse, rse) && dst == TallyOf(store.docs, q, ToRse, rse)
    ensures ok ==> out == blocks + Concat(Copies(RseBlocks(gte, lte, rse, src, dst, threshold), |Slack(ws)|))
  {
    ok, src, dst := CountRoles(store, q, rse);
    out := blocks;
    if ok {
      out := AppendPerSlack(blocks, RseBlocks(gte, lte, rse, src, dst, threshold), ws);
    }
  }

  /** The RSE loop: counts, then the blocks of each RSE, in order. */
  method BuildBlocks(store: Store, q: Query, gte: string, lte: string, threshold: int, rses: seq<string>,
                     ws: seq<Webhook>, head: seq<Block>)
    returns (ok: bool, blocks: seq<Block>)
    ensures ok == (rses == [] || !store.searchFails)
    ensures ok ==> blocks == head + Concat(Groups(gte, lte, threshold, rses, Tallies(store.docs, q, FromRse, rses),
                                                 Tallies(store.docs, q, ToRse, rses), |Slack(ws)|))
  {
    blocks := head;
    ghost var k, docs := |Slack(ws)|, store.docs;
    var i := 0;
    while i < |rses|
      invariant 0 <= i <= |rses|
      invariant i > 0 ==> !store.searchFails
      invariant store.docs == docs
      invariant blocks == head + Concat(Groups(gte, lte, threshold, rses[..i], Tallies(docs, q, FromRse, rses[..i]),
                                               Tallies(docs, q, ToRse, rses[..i]), k))
    {
      var counted, src, dst, more := AppendRse(store, q, gte, lte, threshold, rses[i], ws, blocks);
      if !counted {
        return false, blocks;
      }
      BlocksStep(docs, q, gte, lte, threshold, rses, i, k, src, dst);
      AppendAssoc(head, Concat(Groups(gte, lte, threshold, rses[..i], Tallies(docs, q, FromRse, rses[..i]),
                                      Tallies(docs, q, ToRse, rses[..i]), k)),
                  Concat(Copies(RseBlocks(gte, lte, rses[i], src, dst, threshold), k)));
      blocks := more;
      i := i + 1;
    }
    assert rses[..i] == rses;
    ok := true;
  }

  lemma TalliesSnoc(docs: map<DocKey, Doc>, q: Query, side: Side, rses: seq<string>, i: nat)
    requires i < |rses|
    ensures Tallies(docs, q, side, rses[..i + 1]) == Tallies(docs, q, side, rses[..i]) + [TallyOf(docs, q, side, rses[i])]
  {
    var a, b := Tallies(docs, q, side, rses[..i + 1]), Tallies(docs, q, side, rses[..i]);
    TalliesAt(docs, q, side, rses[..i + 1]);
    TalliesAt(docs, q, side, rses[..i]);
    forall j | 0 <= j < i ensures a[j] == b[j] {
      assert rses[..i + 1][j] == rses[..i][j];
    }
  }

  /** One more RSE counted: its copies follow the blocks of the RSEs before it. */
  lemma BlocksStep(docs: map<DocKey, Doc>, q: Query, gte: string, lte: string, threshold: int, rses: seq<string>,
                   i: nat, k: nat, src: Tally, dst: Tally)
    requires i < |rses|
    requires src == TallyOf(docs, q, FromRse, rses[i]) && dst == TallyOf(docs, q, ToRse, rses[i])
    ensures Tallies(docs, q, FromRse, rses[..i + 1]) == Tallies(docs, q, FromRse, rses[..i]) + [src]
    ensures Tallies(docs, q, ToRse, rses[..i + 1]) == Tallies(docs, q, ToRse, rses[..i]) + [dst]
    ensures Concat(Groups(gte, lte, threshold, rses[..i + 1], Tallies(docs, q, FromRse, rses[..i + 1]),
                          Tallies(docs, q, ToRse, rses[..i + 1]), k))
      == Concat(Groups(gte, lte, threshold, rses[..i], Tallies(docs, q, FromRse, rses[..i]),
                       Tallies(docs, q, ToRse, rses[..i]), k))
         + Concat(Copies(RseBlocks(gte, lte, rses[i], src, dst, threshold), k))
  {
    var srcs, dsts := Tallies(docs, q, FromRse, rses[..i]), Tallies(docs, q, ToRse, rses[..i]);
    TalliesSnoc(docs, q, FromRse, rses, i);
    TalliesSnoc(docs, q, ToRse, rses, i);
    GroupsSnoc(gte, lte, threshold, rses, srcs, dsts, src, dst, i, k);
    ConcatJoin(Groups(gte, lte, threshold, rses[..i], srcs, dsts, k), Copies(RseBlocks(gte, lte, rses[i], src, dst, threshold), k));
  }

  /** The groups of one more RSE, with its tallies appended. */
  lemma GroupsSnoc(gte: string, lte: string, threshold: int, rses: seq<string>, srcs: seq<Tally>, dsts: seq<Tally>,
                   src: Tally, dst: Tally, i: nat, k: nat)
    requires i < |rses| && |srcs| == i && |dsts| == i
    ensures Groups(gte, lte, threshold, rses[..i + 1], srcs + [src], dsts + [dst], k)
      == Groups(gte, lte, threshold, rses[..i], srcs, dsts, k) + Copies(RseBlocks(gte, lte, rses[i], src, dst, threshold), k)
  {
    assert rses[..i + 1][..i] == rses[..i];
    assert (srcs + [src])[..i] == srcs && (dsts + [dst])[..i] == dsts;
  }

  /**
    `run`: a missing argument returns False; nothing is built or sent unless the database
    is `es`; a failing count search ends the process; otherwise every Slack webhook gets
    the whole list.
   */
  method Run(store: Store, a: Kwargs, date: string) returns (end: Ending, posts: seq<Post<seq<Block>>>)
    ensures !Complete(a) ==> end == ReturnedFalse && posts == []
    ensures Complete(a) && a.databaseType.value != "es" ==> end == Finished && posts == []
    ensures Complete(a) && a.databaseType.value == "es" && a.rses.value != [] && store.searchFails ==>
      end == Exited && posts == []
    ensures Complete(a) && a.databaseType.value == "es" && (a.rses.value == [] || !store.searchFails) ==>
      end == Finished
      && posts == SlackPosts(a.webhooks.value,
                             Report(store.docs, QueryOf(a), date, a.searchRangeGte.value.text, a.searchRangeLte.value.text,
                                    a.threshold.value, a.rses.value, |Slack(a.webhooks.value)|))
  {
    if !Complete(a) {
      return ReturnedFalse, [];
    }
    if a.databaseType.value != "es" {
      return Finished, [];
    }
    var ws, thr := a.webhooks.value, a.threshold.value;
    var head := Head("Daily Report (" + date + ")", thr);
    var ok, blocks := BuildBlocks(store, QueryOf(a), a.searchRangeGte.value.text, a.searchRangeLte.value.text, thr,
                                  a.rses.value, ws, head);
    if !ok {
      return Exited, [];
    }
    posts := [];
    var w := 0;
    while w < |ws|
      invariant 0 <= w <= |ws|
      invariant posts == SlackPosts(ws[..w], blocks)
    {
      SlackPostsStep(ws, w, blocks);
      if ws[w].kind == "slack" {
        posts := posts + [Post(ws[w].url, blocks)];
      }
      w := w + 1;
    }
    assert ws[..w] == ws;
    end := Finished;
  }
}
