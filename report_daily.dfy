/**
  The daily report task `ReportDaily`: count the rule documents of one test task per RSE,
  state and role, and post a block layout of those counts to every Slack webhook.
 */
module ReportDaily {
  import opened Wrappers
  import opened Values
  import opened EsStore
  import opened Tasks
  import opened Reports

  /** The task's keyword arguments; None stands for a missing key. */
  datatype Kwargs = Kwargs(databaseType: Option<string>, uri: Option<string>, index: Option<string>,
                           searchRangeLte: Option<int>, searchRangeGte: Option<int>, maxRows: Option<nat>,
                           threshold: Option<int>, reportTitle: Option<string>, rses: Option<seq<string>>,
                           usingTaskName: Option<string>, webhooks: Option<seq<Webhook>>)

  predicate Complete(a: Kwargs)
  {
    a.databaseType.Some? && a.uri.Some? && a.index.Some? && a.searchRangeLte.Some? && a.searchRangeGte.Some?
    && a.maxRows.Some? && a.threshold.Some? && a.reportTitle.Some? && a.rses.Some? && a.usingTaskName.Some?
    && a.webhooks.Some?
  }

  /** The count query of the configured task and window. */
  function QueryOf(a: Kwargs): Query
    requires Complete(a)
  {
    Query(a.index.value, a.maxRows.value, a.usingTaskName.value, a.searchRangeGte.value, a.searchRangeLte.value)
  }

  /** The blocks of one RSE: its name, its line as source, its line as destination, a divider. */
  function RseBlocks(rse: string, src: Tally, dst: Tally, threshold: int): seq<Block>
  {
    [Section(Plain("*" + rse + "*")), Section(CountLine("As src", src, threshold)),
     Section(CountLine("As dst", dst, threshold)), Divider]
  }

  /** The blocks of each RSE, in configuration order. */
  function Groups(docs: map<DocKey, Doc>, q: Query, threshold: int, rses: seq<string>): seq<seq<Block>>
    decreases |rses|
  {
    if rses == [] then []
    else
      var rse := rses[|rses| - 1];
      Groups(docs, q, threshold, rses[..|rses| - 1])
      + [RseBlocks(rse, TallyOf(docs, q, FromRse, rse), TallyOf(docs, q, ToRse, rse), threshold)]
  }

  lemma {:induction false} GroupsAt(docs: map<DocKey, Doc>, q: Query, threshold: int, rses: seq<string>)
    ensures |Groups(docs, q, threshold, rses)| == |rses|
    ensures forall i :: 0 <= i < |rses| ==> |Groups(docs, q, threshold, rses)[i]| == 4
    ensures forall i :: 0 <= i < |rses| ==>
      Groups(docs, q, threshold, rses)[i]
      == RseBlocks(rses[i], TallyOf(docs, q, FromRse, rses[i]), TallyOf(docs, q, ToRse, rses[i]), threshold)
    decreases |rses|
  {
    if rses != [] {
      var n := |rses| - 1;
      GroupsAt(docs, q, threshold, rses[..n]);
      assert forall i :: 0 <= i < n ==> rses[..n][i] == rses[i];
    }
  }

  /** The payload every Slack webhook receives. */
  function Report(docs: map<DocKey, Doc>, q: Query, title: string, date: string, threshold: int, rses: seq<string>)
    : seq<Block>
  {
    Head(title + " (" + date + ")", threshold) + Concat(Groups(docs, q, threshold, rses))
  }

  /**
    Three opening blocks, then four per RSE in configuration order: the RSE's name, then
    its source line, its destination line and a divider.
   */
  lemma ReportLayout(docs: map<DocKey, Doc>, q: Query, title: string, date: string, threshold: int, rses: seq<string>)
    ensures |Report(docs, q, title, date, threshold, rses)| == 3 + 4 * |rses|
    ensures Report(docs, q, title, date, threshold, rses)[..3] == Head(title + " (" + date + ")", threshold)
    ensures forall i :: 0 <= i < |rses| ==>
      Report(docs, q, title, date, threshold, rses)[3 + 4 * i .. 3 + 4 * i + 4]
      == RseBlocks(rses[i], TallyOf(docs, q, FromRse, rses[i]), TallyOf(docs, q, ToRse, rses[i]), threshold)
  {
    GroupsAt(docs, q, threshold, rses);
    HeadThenGroups(Head(title + " (" + date + ")", threshold), Groups(docs, q, threshold, rses));
  }

  /** The blocks of each RSE from counts gathered beforehand, keyed by RSE. */
  function GroupsFrom(rses: seq<string>, srcs: map<string, Tally>, dsts: map<string, Tally>, threshold: int)
    : seq<seq<Block>>
    requires forall j :: 0 <= j < |rses| ==> rses[j] in srcs && rses[j] in dsts
    decreases |rses|
  {
    if rses == [] then []
    else
      var rse := rses[|rses| - 1];
      GroupsFrom(rses[..|rses| - 1], srcs, dsts, threshold) + [RseBlocks(rse, srcs[rse], dsts[rse], threshold)]
  }

  /** With the counts of the store, the blocks are those of the report. */
  lemma {:induction false} GroupsFromCounts(docs: map<DocKey, Doc>, q: Query, threshold: int, rses: seq<string>,
                                            srcs: map<string, Tally>, dsts: map<string, Tally>)
    requires forall j :: 0 <= j < |rses| ==>
      rses[j] in srcs && srcs[rses[j]] == TallyOf(docs, q, FromRse, rses[j])
      && rses[j] in dsts && dsts[rses[j]] == TallyOf(docs, q, ToRse, rses[j])
    ensures GroupsFrom(rses, srcs, dsts, threshold) == Groups(docs, q, threshold, rses)
    decreases |rses|
  {
    if rses != [] {
      var n := |rses| - 1;
      assert forall j :: 0 <= j < n ==> rses[..n][j] == rses[j];
      GroupsFromCounts(docs, q, threshold, rses[..n], srcs, dsts);
    }
  }

  /** The blocks of one Slack payload, built from the counts gathered earlier. */
  method BuildBlocks(title: string, threshold: int, rses: seq<string>, srcs: map<string, Tally>, dsts: map<string, Tally>)
    returns (blocks: seq<Block>)
    requires forall j :: 0 <= j < |rses| ==> rses[j] in srcs && rses[j] in dsts
    ensures blocks == Head(title, threshold) + Concat(GroupsFrom(rses, srcs, dsts, threshold))
  {
    blocks := Head(title, threshold);
    var i := 0;
    while i < |rses|
      invariant 0 <= i <= |rses|
      invariant blocks == Head(title, threshold) + Concat(GroupsFrom(rses[..i], srcs, dsts, threshold))
    {
      var rse := rses[i];
      assert rses[..i + 1][..i] == rses[..i];
      ConcatAppend(GroupsFrom(rses[..i], srcs, dsts, threshold), RseBlocks(rse, srcs[rse], dsts[rse], threshold));
      blocks := blocks + RseBlocks(rse, srcs[rse], dsts[rse], threshold);
      i := i + 1;
    }
    assert rses[..i] == rses;
  }

  /** The payload's counts: every RSE's tallies as source and as destination. */
  method CountAll(store: Store, q: Query, rses: seq<string>)
    returns (ok: bool, srcs: map<string, Tally>, dsts: map<string, Tally>)
    ensures ok == (rses == [] || !store.searchFails)
    ensures ok ==> forall j :: 0 <= j < |rses| ==>
      rses[j] in srcs && srcs[rses[j]] == TallyOf(store.docs, q, FromRse, rses[j])
      && rses[j] in dsts && dsts[rses[j]] == TallyOf(store.docs, q, ToRse, rses[j])
  {
    srcs, dsts := map[], map[];
    var i := 0;
    while i < |rses|
      invariant 0 <= i <= |rses|
      invariant i > 0 ==> !store.searchFails
      invariant forall j :: 0 <= j < i ==>
        rses[j] in srcs && srcs[rses[j]] == TallyOf(store.docs, q, FromRse, rses[j])
        && rses[j] in dsts && dsts[rses[j]] == TallyOf(store.docs, q, ToRse, rses[j])
    {
      var counted, s, d := CountRoles(store, q, rses[i]);
      if !counted {
        return false, srcs, dsts;
      }
      srcs := srcs[rses[i] := s];
      dsts := dsts[rses[i] := d];
      i := i + 1;
    }
    ok := true;
  }

  /**
    `run`: a missing argument returns False. Counts are gathered only for an `es` database
    (a failing search ends the process); each Slack webhook then gets the report. Without
    counts the first RSE line raises (the count tables were never defined), so the only
    report that can be sent then is one for an empty RSE list.
   */
  method Run(store: Store, a: Kwargs, date: string) returns (end: Ending, posts: seq<Post<seq<Block>>>)
    ensures !Complete(a) ==> end == ReturnedFalse && posts == []
    ensures Complete(a) && a.databaseType.value == "es" && a.rses.value != [] && store.searchFails ==>
      end == Exited && posts == []
    ensures Complete(a) && a.databaseType.value == "es" && (a.rses.value == [] || !store.searchFails) ==>
      end == Finished
      && posts == SlackPosts(a.webhooks.value,
                             Report(store.docs, QueryOf(a), a.reportTitle.value, date, a.threshold.value, a.rses.value))
    ensures Complete(a) && a.databaseType.value != "es" && a.rses.value != [] && Slack(a.webhooks.value) != [] ==>
      end == Raising && posts == []
    ensures Complete(a) && a.databaseType.value != "es" && (a.rses.value == [] || Slack(a.webhooks.value) == []) ==>
      end == Finished
      && posts == SlackPosts(a.webhooks.value, Head(a.reportTitle.value + " (" + date + ")", a.threshold.value))
  {
    if !Complete(a) {
      return ReturnedFalse, [];
    }
    var q, rses, ws, thr := QueryOf(a), a.rses.value, a.webhooks.value, a.threshold.value;
    var title := a.reportTitle.value + " (" + date + ")";
    var counted := a.databaseType.value == "es";
    var srcs: map<string, Tally>, dsts: map<string, Tally> := map[], map[];
    if counted {
      var ok;
      ok, srcs, dsts := CountAll(store, q, rses);
      if !ok {
        return Exited, [];
      }
    }
    ghost var payload := if counted then Report(store.docs, q, a.reportTitle.value, date, thr, rses)
                         else Head(title, thr);
    posts := [];
    var w := 0;
    while w < |ws|
      invariant 0 <= w <= |ws|
      invariant posts == SlackPosts(ws[..w], payload)
      invariant !counted && rses != [] ==> posts == []
    {
      SlackPostsStep(ws, w, payload);
      if ws[w].kind == "slack" {
        if !counted && rses != [] {
          SlackMeans(ws);
          assert ws[w] in ws;
          return Raising, posts;
        }
        if !counted {
          assert Groups(store.docs, q, thr, rses) == [];
        }
        var blocks := BuildBlocks(title, thr, rses, srcs, dsts);
        GroupsFromCounts(store.docs, q, thr, rses, srcs, dsts);
        assert blocks == payload;
        posts := posts + [Post(ws[w].url, blocks)];
      }
      w := w + 1;
    }
    assert ws[..w] == ws;
    SlackPostsMeans(ws, payload);
    end := Finished;
  }
}
