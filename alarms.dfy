/**
  The stuck-rule alarm task `AlarmStuck`: select the stuck documents created in a window
  and send every Slack webhook one message holding an attachment per stuck document and
  Slack webhook.
 */
module Alarms {
  import opened Wrappers
  import opened Text
  import opened Values
  import opened EsStore
  import opened Tasks
  import opened Reports

  /** The task's keyword arguments; None stands for a missing key. */
  datatype Kwargs = Kwargs(databaseType: Option<string>, uri: Option<string>, index: Option<string>,
                           searchRangeLte: Option<int>, searchRangeGte: Option<int>, maxRows: Option<nat>,
                           webhooks: Option<seq<Webhook>>)

  predicate Complete(a: Kwargs)
  {
    a.databaseType.Some? && a.uri.Some? && a.index.Some? && a.searchRangeLte.Some? && a.searchRangeGte.Some?
    && a.maxRows.Some? && a.webhooks.Some?
  }

  /** The query: stuck, created in `[gte, lte]`. */
  function Selection(gte: int, lte: int): seq<Filter>
  {
    [Term("is_stuck", Int(1)), Range("created_at", gte, lte)]
  }

  lemma SelectionMeans(d: Doc, gte: int, lte: int)
    ensures Matches(d, Selection(gte, lte)) <==>
      ("is_stuck" in d && d["is_stuck"] == Int(1))
      && ("created_at" in d && d["created_at"].Time? && gte <= d["created_at"].secs <= lte)
  {
    var fs := Selection(gte, lte);
    if Matches(d, fs) {
      assert Holds(d, fs[0]) && Holds(d, fs[1]);
    }
  }

  /** One Slack attachment with its single field. */
  datatype Attachment = Attachment(fallback: string, pretext: string, color: string,
                                   title: string, value: string, short: bool)

  /** The fields an attachment reads without a default; a missing one raises `KeyError`. */
  predicate HasRequired(src: Doc)
  {
    "rule_id" in src && "scope" in src && "name" in src && "from_rse" in src && "to_rse" in src
    && "created_at" in src
  }

  function Headline(fromRse: string, toRse: string, createdAt: string): string
  {
    "STUCK: " + fromRse + " to " + toRse + " @ " + createdAt
  }

  function Description(ruleId: string, did: string, error: string): string
  {
    "rule id:    " + ruleId + "\n" + "did:        " + did + "\n" + "error:      " + error + "\n"
  }

  /** The attachment of one stuck document, or None when it lacks a required field. */
  function AttachmentOf(src: Doc): Option<Attachment>
  {
    if !HasRequired(src) then None
    else
      var error := if "error" in src then src["error"] else Null;
      var headline := Headline(Render(src["from_rse"]), Render(src["to_rse"]), Render(src["created_at"]));
      Some(Attachment(headline, headline, "#D00000", "Description",
                      Description(Render(src["rule_id"]), Render(src["scope"]) + ":" + Render(src["name"]), Render(error)),
                      false))
  }

  /**
    An attachment exists iff the six required fields do; its fallback and pretext are the
    same headline, its colour is red, and a missing `error` renders as `None`.
   */
  lemma AttachmentMeans(src: Doc)
    ensures AttachmentOf(src).Some? <==> HasRequired(src)
    ensures AttachmentOf(src).Some? ==>
      var x := AttachmentOf(src).value;
      x.fallback == x.pretext == Headline(Render(src["from_rse"]), Render(src["to_rse"]), Render(src["created_at"]))
      && x.color == "#D00000" && x.title == "Description" && !x.short
      && x.value == Description(Render(src["rule_id"]), Render(src["scope"]) + ":" + Render(src["name"]),
                                if "error" in src then Render(src["error"]) else "None")
  {
  }

  /** The description reads back as its three lines and an empty tail, when no value holds a newline. */
  lemma DescriptionLines(ruleId: string, did: string, error: string)
    requires '\n' !in ruleId && '\n' !in did && '\n' !in error
    ensures Split(Description(ruleId, did, error), "\n")
      == ["rule id:    " + ruleId, "did:        " + did, "error:      " + error, ""]
  {
    var parts := ["rule id:    " + ruleId, "did:        " + did, "error:      " + error, ""];
    assert Join(parts[3..], "\n") == "";
    JoinCons(parts[2], parts[3..], "\n");
    assert parts[2..] == [parts[2]] + parts[3..];
    JoinCons(parts[1], parts[2..], "\n");
    assert parts[1..] == [parts[1]] + parts[2..];
    JoinCons(parts[0], parts[1..], "\n");
    assert parts == [parts[0]] + parts[1..];
    assert Join(parts, "\n") == Description(ruleId, did, error);
    SplitJoin(parts, "\n");
  }

  /** The attachments of the hits in order, each repeated once per Slack webhook; None when one raises. */
  function Attachments(hits: seq<Hit>, k: nat): Option<seq<Attachment>>
    decreases |hits|
  {
    if hits == [] then Some([])
    else
      var n := |hits| - 1;
      match Attachments(hits[..n], k)
      case None => None
      case Some(xs) =>
        match AttachmentOf(hits[n].source)
        case None => None
        case Some(x) => Some(xs + Copies(x, k))
  }

  /** The attachments exist iff every hit has the required fields. */
  lemma {:induction false} AttachmentsExist(hits: seq<Hit>, k: nat)
    ensures Attachments(hits, k).Some? <==> forall i :: 0 <= i < |hits| ==> HasRequired(hits[i].source)
    decreases |hits|
  {
    if hits != [] {
      AttachmentsExist(hits[..|hits| - 1], k);
      AttachmentMeans(hits[|hits| - 1].source);
      RequiredSnoc(hits);
    }
  }

  /** Every hit has the fields iff every earlier one and the last one do. */
  lemma RequiredSnoc(hits: seq<Hit>)
    requires hits != []
    ensures var init := hits[..|hits| - 1];
      (forall i :: 0 <= i < |hits| ==> HasRequired(hits[i].source))
      <==> (forall i :: 0 <= i < |init| ==> HasRequired(init[i].source)) && HasRequired(hits[|hits| - 1].source)
  {
    var init := hits[..|hits| - 1];
    assert forall i :: 0 <= i < |init| ==> init[i] == hits[i];
  }

  /** Then there are `k · |hits|` of them, copy `c` of hit `i`'s attachment at `Slot(k, i, c)`. */
  lemma AttachmentsLayout(hits: seq<Hit>, k: nat)
    requires Attachments(hits, k).Some?
    ensures |Attachments(hits, k).value| == k * |hits|
    ensures forall i, c :: 0 <= i < |hits| && 0 <= c < k ==>
      Slot(k, i, c) < k * |hits|
      && AttachmentOf(hits[i].source).Some?
      && Attachments(hits, k).value[Slot(k, i, c)] == AttachmentOf(hits[i].source).value
  {
    AttachmentsLength(hits, k);
    forall i, c | 0 <= i < |hits| && 0 <= c < k
      ensures Slot(k, i, c) < k * |hits|
      ensures AttachmentOf(hits[i].source).Some?
      ensures Attachments(hits, k).value[Slot(k, i, c)] == AttachmentOf(hits[i].source).value
    {
      AttachmentAt(hits, k, i, c);
    }
  }

  /** There are `k` attachments per hit. */
  lemma {:induction false} AttachmentsLength(hits: seq<Hit>, k: nat)
    requires Attachments(hits, k).Some?
    ensures |Attachments(hits, k).value| == k * |hits|
    decreases |hits|
  {
    if hits == [] {
      MulNone(k, |hits|);
    } else {
      AttachmentsLength(hits[..|hits| - 1], k);
      MulLast(k, |hits|);
    }
  }

  /** Copy `c` of hit `i`'s attachment sits at `Slot(k, i, c)`. */
  lemma {:induction false} AttachmentAt(hits: seq<Hit>, k: nat, i: nat, c: nat)
    requires Attachments(hits, k).Some? && i < |hits| && c < k
    ensures Slot(k, i, c) < k * |hits| && Slot(k, i, c) < |Attachments(hits, k).value|
    ensures AttachmentOf(hits[i].source).Some?
    ensures Attachments(hits, k).value[Slot(k, i, c)] == AttachmentOf(hits[i].source).value
    decreases |hits|
  {
    var n := |hits| - 1;
    var init := hits[..n];
    var xs := Attachments(init, k).value;
    var x := AttachmentOf(hits[n].source).value;
    assert Attachments(hits, k).value == xs + Copies(x, k);
    AttachmentsLength(init, k);
    CopiesSnocAt(xs, x, k, n, i, c);
    if i < n {
      AttachmentAt(init, k, i, c);
      assert init[i] == hits[i];
    }
  }

  /** The webhook loop over one hit: its attachment once per Slack webhook. */
  method AppendPerSlack(atts: seq<Attachment>, x: Attachment, ws: seq<Webhook>) returns (out: seq<Attachment>)
    ensures out == atts + Copies(x, |Slack(ws)|)
  {
    out := atts;
    var w := 0;
    ghost var m := 0;
    while w < |ws|
      invariant 0 <= w <= |ws|
      invariant m == |Slack(ws[..w])|
      invariant out == atts + Copies(x, m)
    {
      SlackStep(ws, w);
      if ws[w].kind == "slack" {
        assert Copies(x, m + 1) == Copies(x, m) + [x];
        out := out + [x];
        m := m + 1;
      }
      w := w + 1;
    }
    assert ws[..w] == ws;
  }

  /** The hit loop: each hit's attachment, in hit order. */
  method BuildAttachments(hits: seq<Hit>, ws: seq<Webhook>) returns (r: Option<seq<Attachment>>)
    ensures r == Attachments(hits, |Slack(ws)|)
  {
    var atts := [];
    var i := 0;
    while i < |hits|
      invariant 0 <= i <= |hits|
      invariant Attachments(hits[..i], |Slack(ws)|) == Some(atts)
    {
      assert hits[..i + 1][..i] == hits[..i];
      var x := AttachmentOf(hits[i].source);
      if x.None? {
        assert Attachments(hits[..i + 1], |Slack(ws)|) == None;
        AttachmentsPrefix(hits, i + 1, |Slack(ws)|);
        return None;
      }
      atts := AppendPerSlack(atts, x.value, ws);
      i := i + 1;
    }
    assert hits[..i] == hits;
    r := Some(atts);
  }

  /** Once a prefix raises, so does the whole list. */
  lemma {:induction false} AttachmentsPrefix(hits: seq<Hit>, n: nat, k: nat)
    requires n <= |hits| && Attachments(hits[..n], k).None?
    ensures Attachments(hits, k).None?
    decreases |hits| - n
  {
    if n < |hits| {
      assert hits[..n + 1][..n] == hits[..n];
      AttachmentsPrefix(hits, n + 1, k);
    } else {
      assert hits[..n] == hits;
    }
  }

  /**
    `run`: a missing argument exits; nothing happens unless the database is `es`; a failing
    search exits; a stuck document without a required field raises before anything is sent;
    otherwise every Slack webhook is sent all the attachments.
   */
  method Run(store: Store, a: Kwargs) returns (end: Ending, hits: seq<Hit>, posts: seq<Post<seq<Attachment>>>)
    ensures !Complete(a) ==> end == Exited && posts == []
    ensures Complete(a) && a.databaseType.value != "es" ==> end == Finished && posts == []
    ensures Complete(a) && a.databaseType.value == "es" && store.searchFails ==> end == Exited && posts == []
    ensures Complete(a) && a.databaseType.value == "es" && !store.searchFails ==>
      var fs := Selection(a.searchRangeGte.value, a.searchRangeLte.value);
      HitsFrom(hits, store.docs, a.index.value, fs) && DistinctIds(hits)
      && |hits| == Min(a.maxRows.value, |MatchingKeys(store.docs, a.index.value, fs)|)
      && match Attachments(hits, |Slack(a.webhooks.value)|)
         case None => end == Raising && posts == []
         case Some(atts) => end == Finished && posts == SlackPosts(a.webhooks.value, atts)
  {
    hits, posts := [], [];
    if !Complete(a) {
      return Exited, hits, posts;
    }
    if a.databaseType.value != "es" {
      return Finished, hits, posts;
    }
    var found := SearchOrExit(store, a.index.value, Selection(a.searchRangeGte.value, a.searchRangeLte.value),
                              a.maxRows.value);
    if found.None? {
      return Exited, hits, posts;
    }
    hits := found.value;
    var ws := a.webhooks.value;
    var built := BuildAttachments(hits, ws);
    if built.None? {
      return Raising, hits, posts;
    }
    var atts := built.value;
    var w := 0;
    while w < |ws|
      invariant 0 <= w <= |ws|
      invariant posts == SlackPosts(ws[..w], atts)
    {
      SlackPostsStep(ws, w, atts);
      if ws[w].kind == "slack" {
        posts := posts + [Post(ws[w].url, atts)];
      }
      w := w + 1;
    }
    assert ws[..w] == ws;
    end := Finished;
  }
}
