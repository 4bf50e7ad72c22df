/**
  The service heartbeat probe `ProbesServiceHeartbeats`: request each configured service's
  endpoint, mark the service alive or record why not, then index one document per
  service, keyed by its name, into each `es` database.
 */
module ProbeHeartbeats {
  import opened Wrappers
  import opened Seqs
  import opened Text
  import opened Values
  import opened EsStore
  import opened Tasks

  /** Why a service is not alive. */
  datatype Mismatch =
    | StatusMismatch(expectedStatus: Value, gotStatus: int)
    | ContentMismatch(expectedContent: Doc, gotContent: Doc)

  /** The `is_alive` and `error` entries a check writes into a service. */
  datatype Verdict = Verdict(isAlive: int, error: Option<Mismatch>)

  /**
    One configured service. `expectedContent` is the expected body, the empty map standing
    for a falsy one; `verdict` is None until the service is checked.
   */
  datatype Service = Service(name: Value, endpoint: Value, expectedStatus: Value, expectedContent: Doc,
                             verdict: Option<Verdict>)

  /**
    The answer to the request for an endpoint: a status and a body that decodes to an
    object (None when it does not, where decoding raises), or no answer at all, where the
    request raises.
   */
  datatype Response = Response(status: int, content: Option<Doc>) | Unreachable

  /** The keyword arguments: whether `services` is present, and `databases` (None when missing). */
  datatype Kwargs = Kwargs(hasServices: bool, databases: Option<Option<seq<Database>>>)

  predicate Complete(a: Kwargs)
  {
    a.hasServices && a.databases.Some?
  }

  /** The check of one service against its response; None when it raises. */
  function Check(s: Service, r: Response): Option<Verdict>
  {
    match r
    case Unreachable => None
    case Response(status, content) =>
      if Int(status) != s.expectedStatus then Some(Verdict(0, Some(StatusMismatch(s.expectedStatus, status))))
      else if s.expectedContent == map[] then Some(Verdict(1, None))
      else if content.None? then None
      else if content.value == s.expectedContent then Some(Verdict(1, None))
      else Some(Verdict(0, Some(ContentMismatch(s.expectedContent, content.value))))
  }

  /**
    A service is alive iff the status is the expected one and either no content is
    expected or the content is the expected one; it has an error iff it is not alive.
   */
  lemma CheckMeans(s: Service, r: Response)
    requires Check(s, r).Some?
    ensures var v := Check(s, r).value;
      r.Response?
      && (v.isAlive == 1 <==>
            Int(r.status) == s.expectedStatus
            && (s.expectedContent == map[] || (r.content.Some? && r.content.value == s.expectedContent)))
      && (v.isAlive == 0 || v.isAlive == 1)
      && (v.error.None? <==> v.isAlive == 1)
  {
  }

  /**
    The check raises exactly when the request does, or when the status matches, content is
    expected and the body does not decode.
   */
  lemma CheckRaises(s: Service, r: Response)
    ensures Check(s, r).None? <==>
      r.Unreachable? || (Int(r.status) == s.expectedStatus && s.expectedContent != map[] && r.content.None?)
  {
  }

  /**
    The status is decided first: a wrong status is reported as such, naming the expected
    and the actual status, whatever the body holds; a content mismatch names the expected
    and the actual content.
   */
  lemma StatusFirst(s: Service, status: int, content: Option<Doc>)
    ensures Int(status) != s.expectedStatus ==>
      Check(s, Response(status, content)) == Some(Verdict(0, Some(StatusMismatch(s.expectedStatus, status))))
    ensures Int(status) == s.expectedStatus && Check(s, Response(status, content)).Some?
            && Check(s, Response(status, content)).value.error.Some? ==>
      content.Some?
      && Check(s, Response(status, content)).value.error.value == ContentMismatch(s.expectedContent, content.value)
  {
  }

  /** The text of an error; `repr` is Python's `repr` of a dictionary. */
  function Message(m: Mismatch, repr: Doc -> string): string
  {
    match m
    case StatusMismatch(e, g) => "status code mismatch, expected " + Render(e) + " got " + IntToString(g)
    case ContentMismatch(e, g) => "content mismatch, expected " + repr(e) + " got " + repr(g)
  }

  /** The two kinds of error read differently: each starts with its own word. */
  lemma MessageKinds(m: Mismatch, repr: Doc -> string)
    ensures m.StatusMismatch? <==> Message(m, repr)[..6] == "status"
    ensures m.ContentMismatch? <==> Message(m, repr)[..7] == "content"
  {
    if m.StatusMismatch? {
      StatusHead(Render(m.expectedStatus) + " got " + IntToString(m.gotStatus));
    } else {
      ContentHead(repr(m.expectedContent) + " got " + repr(m.gotContent));
    }
  }

  lemma StatusHead(rest: string)
    ensures ("status code mismatch, expected " + rest)[..6] == "status"
    ensures ("status code mismatch, expected " + rest)[..7] != "content"
  {
    var t := "status code mismatch, expected " + rest;
    assert t[0] == 's';
    assert t[..6] == "status";
    assert t[..7][0] != "content"[0];
  }

  lemma ContentHead(rest: string)
    ensures ("content mismatch, expected " + rest)[..7] == "content"
    ensures ("content mismatch, expected " + rest)[..6] != "status"
  {
    var t := "content mismatch, expected " + rest;
    assert t[0] == 'c';
    assert t[..7] == "content";
    assert t[..6][0] != "status"[0];
  }

  /** The stored `error` entry. */
  function ErrorValue(e: Option<Mismatch>, repr: Doc -> string): Value
  {
    if e.None? then Null else Str(Message(e.value, repr))
  }

  /** The position of the first service whose check raises, or the length when none does. */
  function FirstRaise(svcs: seq<Service>, rs: seq<Response>): (m: nat)
    requires |rs| == |svcs|
    ensures m <= |svcs|
    ensures forall i :: 0 <= i < m ==> Check(svcs[i], rs[i]).Some?
    ensures m < |svcs| ==> Check(svcs[m], rs[m]).None?
    decreases |svcs|
  {
    if svcs == [] || Check(svcs[0], rs[0]).None? then 0 else 1 + FirstRaise(svcs[1..], rs[1..])
  }

  /** A service after its check. */
  function Checked(s: Service, r: Response): Service
    requires Check(s, r).Some?
  {
    s.(verdict := Check(s, r))
  }

  /**
    The check loop, in place: `rs[i]` answers the request for service `i`. A check that
    raises stops the loop there.
   */
  method CheckAll(svcs: array<Service>, rs: seq<Response>) returns (ok: bool)
    requires |rs| == svcs.Length
    modifies svcs
    ensures var m := FirstRaise(old(svcs[..]), rs);
      ok == (m == svcs.Length)
      && (forall i :: 0 <= i < m ==> svcs[i] == Checked(old(svcs[i]), rs[i]))
      && (forall i :: m <= i < svcs.Length ==> svcs[i] == old(svcs[i]))
  {
    ghost var m := FirstRaise(svcs[..], rs);
    var i := 0;
    while i < svcs.Length
      invariant 0 <= i <= m
      invariant forall j :: 0 <= j < i ==> svcs[j] == Checked(old(svcs[j]), rs[j])
      invariant forall j :: i <= j < svcs.Length ==> svcs[j] == old(svcs[j])
    {
      assert old(svcs[..])[i] == svcs[i];
      var r := rs[i];
      var v: Verdict;
      match r {
        case Unreachable =>
          return false;
        case Response(status, content) =>
          if Int(status) == svcs[i].expectedStatus {
            if svcs[i].expectedContent != map[] {
              if content.None? {
                return false;
              }
              if content.value == svcs[i].expectedContent {
                v := Verdict(1, None);
              } else {
                v := Verdict(0, Some(ContentMismatch(svcs[i].expectedContent, content.value)));
              }
            } else {
              v := Verdict(1, None);
            }
          } else {
            v := Verdict(0, Some(StatusMismatch(svcs[i].expectedStatus, status)));
          }
      }
      svcs[i] := svcs[i].(verdict := Some(v));
      i := i + 1;
    }
    ok := true;
  }

  /** The indexed document of a checked service. */
  function Body(nowSecs: int, s: Service, repr: Doc -> string): Doc
    requires s.verdict.Some?
  {
    map["@timestamp" := Int(nowSecs * 1000), "service_name" := s.name, "service_endpoint" := s.endpoint,
        "is_alive" := Int(s.verdict.value.isAlive), "error" := ErrorValue(s.verdict.value.error, repr)]
  }

  /** The document holds the five fields, and its `error` is null iff the service is alive. */
  lemma BodyMeans(nowSecs: int, s: Service, repr: Doc -> string)
    requires s.verdict.Some? && (s.verdict.value.error.None? <==> s.verdict.value.isAlive == 1)
    ensures var b := Body(nowSecs, s, repr);
      b.Keys == {"@timestamp", "service_name", "service_endpoint", "is_alive", "error"}
      && b["service_name"] == s.name && b["service_endpoint"] == s.endpoint
      && (b["error"] == Null <==> b["is_alive"] == Int(1))
  {
  }

  /** The index request for one service, keyed by its name. */
  function WriteOf(index: string, s: Service, nowSecs: int, repr: Doc -> string): Write
    requires s.verdict.Some?
  {
    Write(index, Render(s.name), Body(nowSecs, s, repr))
  }

  /** The index requests for the services of one database, in order. */
  function ServiceWrites(index: string, svcs: seq<Service>, nowSecs: int, repr: Doc -> string): seq<Write>
    requires forall i :: 0 <= i < |svcs| ==> svcs[i].verdict.Some?
    decreases |svcs|
  {
    if svcs == [] then []
    else ServiceWrites(index, svcs[..|svcs| - 1], nowSecs, repr) + [WriteOf(index, svcs[|svcs| - 1], nowSecs, repr)]
  }

  lemma {:induction false} ServiceWritesAt(index: string, svcs: seq<Service>, nowSecs: int, repr: Doc -> string)
    requires forall i :: 0 <= i < |svcs| ==> svcs[i].verdict.Some?
    ensures |ServiceWrites(index, svcs, nowSecs, repr)| == |svcs|
    ensures forall i :: 0 <= i < |svcs| ==>
      ServiceWrites(index, svcs, nowSecs, repr)[i] == WriteOf(index, svcs[i], nowSecs, repr)
    decreases |svcs|
  {
    if svcs != [] {
      var n := |svcs| - 1;
      var init := svcs[..n];
      assert forall i :: 0 <= i < n ==> init[i] == svcs[i];
      ServiceWritesAt(index, init, nowSecs, repr);
      var w, last := ServiceWrites(index, init, nowSecs, repr), WriteOf(index, svcs[n], nowSecs, repr);
      var all := ServiceWrites(index, svcs, nowSecs, repr);
      assert all == w + [last];
      SnocAt(w, last);
      forall i | 0 <= i < |svcs| ensures all[i] == WriteOf(index, svcs[i], nowSecs, repr) {
        if i < n {
          assert init[i] == svcs[i] && all[i] == w[i];
        } else {
          assert i == n && all[i] == last;
        }
      }
    }
  }

  /** The requests of every `es` database in order. */
  function Writes(indexes: seq<string>, svcs: seq<Service>, nowSecs: int, repr: Doc -> string): seq<Write>
    requires forall i :: 0 <= i < |svcs| ==> svcs[i].verdict.Some?
    decreases |indexes|
  {
    if indexes == [] then []
    else Writes(indexes[..|indexes| - 1], svcs, nowSecs, repr) + ServiceWrites(indexes[|indexes| - 1], svcs, nowSecs, repr)
  }

  /**
    With distinct service names, an `es` index holds each service's document under its
    name afterwards, unless the store refuses that key.
   */
  lemma OneDocumentPerService(docs: map<DocKey, Doc>, rejected: set<DocKey>, index: string, svcs: seq<Service>,
                              nowSecs: int, repr: Doc -> string)
    requires forall i :: 0 <= i < |svcs| ==> svcs[i].verdict.Some?
    requires forall i, j :: 0 <= i < j < |svcs| ==> Render(svcs[i].name) != Render(svcs[j].name)
    ensures forall i :: 0 <= i < |svcs| && DocKey(index, Render(svcs[i].name)) !in rejected ==>
      var k := DocKey(index, Render(svcs[i].name));
      k in Apply(docs, rejected, ServiceWrites(index, svcs, nowSecs, repr))
      && Apply(docs, rejected, ServiceWrites(index, svcs, nowSecs, repr))[k] == Body(nowSecs, svcs[i], repr)
  {
    var ws := ServiceWrites(index, svcs, nowSecs, repr);
    ServiceWritesAt(index, svcs, nowSecs, repr);
    assert forall i :: 0 <= i < |svcs| ==> WriteKey(ws[i]) == DocKey(index, Render(svcs[i].name));
    ApplyDistinct(docs, rejected, ws);
  }

  /** The service loop of one database. */
  method IndexServices(store: Store, index: string, svcs: seq<Service>, nowSecs: int, repr: Doc -> string)
    requires forall i :: 0 <= i < |svcs| ==> svcs[i].verdict.Some?
    modifies store
    ensures store.docs == Apply(old(store.docs), store.rejected, ServiceWrites(index, svcs, nowSecs, repr))
  {
    ghost var done: seq<Write> := [];
    var i := 0;
    while i < |svcs|
      invariant 0 <= i <= |svcs|
      invariant done == ServiceWrites(index, svcs[..i], nowSecs, repr)
      invariant store.docs == Apply(old(store.docs), store.rejected, done)
    {
      var w := WriteOf(index, svcs[i], nowSecs, repr);
      ServiceWritesSnoc(index, svcs, i, nowSecs, repr);
      ApplySnoc(old(store.docs), store.rejected, done, w);
      var _ := store.Index(index, w.id, w.body);
      done := done + [w];
      i := i + 1;
    }
    assert svcs[..i] == svcs;
  }

  lemma ServiceWritesSnoc(index: string, svcs: seq<Service>, i: nat, nowSecs: int, repr: Doc -> string)
    requires i < |svcs| && forall j :: 0 <= j < |svcs| ==> svcs[j].verdict.Some?
    ensures ServiceWrites(index, svcs[..i + 1], nowSecs, repr)
      == ServiceWrites(index, svcs[..i], nowSecs, repr) + [WriteOf(index, svcs[i], nowSecs, repr)]
  {
    assert svcs[..i + 1][..i] == svcs[..i];
  }

  /** The database loop. */
  method IndexAll(store: Store, dbs: seq<Database>, svcs: seq<Service>, nowSecs: int, repr: Doc -> string)
    requires forall i :: 0 <= i < |svcs| ==> svcs[i].verdict.Some?
    modifies store
    ensures store.docs == Apply(old(store.docs), store.rejected, Writes(EsIndexes(dbs), svcs, nowSecs, repr))
  {
    ghost var done: seq<Write> := [];
    var d := 0;
    while d < |dbs|
      invariant 0 <= d <= |dbs|
      invariant done == Writes(EsIndexes(dbs[..d]), svcs, nowSecs, repr)
      invariant store.docs == Apply(old(store.docs), store.rejected, done)
    {
      EsIndexesSnoc(dbs, d);
      if dbs[d].kind == "es" {
        IndexServices(store, dbs[d].index, svcs, nowSecs, repr);
        var indexes := EsIndexes(dbs[..d]);
        assert EsIndexes(dbs[..d + 1]) == indexes + [dbs[d].index];
        assert (indexes + [dbs[d].index])[..|indexes|] == indexes;
        ApplyConcat(old(store.docs), store.rejected, done, ServiceWrites(dbs[d].index, svcs, nowSecs, repr));
        done := done + ServiceWrites(dbs[d].index, svcs, nowSecs, repr);
      } else {
        assert EsIndexes(dbs[..d + 1]) == EsIndexes(dbs[..d]);
      }
      d := d + 1;
    }
    assert dbs[..d] == dbs;
  }

  /**
    `run`: a missing argument returns False; every service is checked in order, and a check
    that raises stops the task there; otherwise, unless `databases` is None, every service
    is indexed into each `es` database.
   */
  method Run(store: Store, a: Kwargs, svcs: array<Service>, rs: seq<Response>, nowSecs: int, repr: Doc -> string)
    returns (end: Ending)
    requires |rs| == svcs.Length
    modifies store, svcs
    ensures !Complete(a) ==> end == ReturnedFalse && store.docs == old(store.docs) && svcs[..] == old(svcs[..])
    ensures Complete(a) ==>
      var m := FirstRaise(old(svcs[..]), rs);
      (forall i :: 0 <= i < m ==> svcs[i] == Checked(old(svcs[i]), rs[i]))
      && (m < svcs.Length ==> end == Raising && store.docs == old(store.docs) && svcs[m..] == old(svcs[m..]))
      && (m == svcs.Length ==>
            end == Finished
            && store.docs == match a.databases.value
                             case None => old(store.docs)
                             case Some(dbs) => Apply(old(store.docs), store.rejected,
                                                     Writes(EsIndexes(dbs), svcs[..], nowSecs, repr)))
  {
    if !Complete(a) {
      return ReturnedFalse;
    }
    var checked := CheckAll(svcs, rs);
    if !checked {
      return Raising;
    }
    if a.databases.value.Some? {
      IndexAll(store, a.databases.value.value, svcs[..], nowSecs, repr);
    }
    end := Finished;
  }
}
