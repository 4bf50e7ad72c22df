/**
  The task `TestRegisterNondeterministic` (src/tasks/tests/register_nondeterministic.py):
  read every file list in the RSE's list directory and register each listed file as a
  replica, attached to a dataset of its scope and kept by a rule, then delete the list.
  The Rucio and storage calls become a log of actions; the dataset catalogue is the
  `Helpers.Catalogue` that `createCollection` updates.
 */
module RegisterNondeterministic {
  import opened Wrappers
  import opened Seqs
  import opened Text
  import Paths
  import opened Pfns
  import opened Tasks
  import opened FileLists
  import opened Helpers
  import RucioWrappers
  import Reports

  /** The task's kwargs; None is a missing key (`dataset_name` may itself be None). */
  datatype Kwargs = Kwargs(
    rse: Option<string>,
    scheme: Option<string>,
    hostname: Option<string>,
    prefix: Option<string>,
    filelistDir: Option<string>,
    lifetime: Option<int>,
    datasetName: Option<Option<string>>)

  predicate Complete(k: Kwargs)
  {
    k.rse.Some? && k.scheme.Some? && k.hostname.Some? && k.prefix.Some? && k.filelistDir.Some?
    && k.lifetime.Some? && k.datasetName.Some?
  }

  /** All kwargs present and the configured protocol offered by the RSE. */
  predicate Supported(k: Kwargs, protocols: seq<Protocol>)
  {
    Complete(k) && Protocol(k.scheme.value, k.hostname.value, k.prefix.value) in protocols
  }

  /** One call that changes something: three Rucio calls per entry, and the list's deletion. */
  datatype Action =
    | AddReplica(rse: string, did: string, pfn: string)
    | Attach(dataset: string, did: string)
    | AddRule(did: string, copies: nat, rse: string, lifetime: int)
    | Unlink(path: string)

  /**
    What every entry is registered with: the RSE, the rule lifetime, the dataset name
    (None for the dated default), today's date, and whether the catalogue's listing or
    adding fails.
   */
  datatype Config = Config(rse: string, lifetime: int, datasetName: Option<string>, today: string,
                           listFails: bool, addFails: bool)

  /** The catalogue and the log so far. */
  datatype State = State(dids: set<string>, added: seq<(string, string)>, log: seq<Action>)

  /** Where a step leaves the task: still going (`stop` None) or ended, and the state. */
  datatype Progress = Progress(stop: Option<Ending>, st: State)

  /** The three calls that register one file. */
  function EntryActions(cfg: Config, dataset: string, did: string, path: string): seq<Action>
  {
    [AddReplica(cfg.rse, did, path), Attach(dataset, did), AddRule(did, 1, cfg.rse, cfg.lifetime)]
  }

  /**
    One entry: `addReplica` raises on a DID without ':'; then the dataset of the DID's
    scope is made sure of, and a failed `createCollection` (False) makes `attach` raise,
    as does a DID whose space-separated tokens lack a ':'; otherwise the file is attached
    and ruled.
   */
  function OnEntry(cfg: Config, st: State, p: Pfn, did: string): Progress
  {
    if ':' !in did then Progress(Some(Raising), st)
    else
      var log := st.log + [AddReplica(cfg.rse, did, AbsPath(p))];
      var c := Create(st.dids, st.added, cfg.listFails, cfg.addFails, RucioWrappers.SplitDid(did).value.scope,
                      cfg.datasetName, "DATASET", cfg.today);
      if c.did.None? || RucioWrappers.DidsOf(Split(did, " ")).None? then Progress(Some(Raising), State(c.dids, c.added, log))
      else Progress(None, State(c.dids, c.added, log + [Attach(c.did.value, did), AddRule(did, 1, cfg.rse, cfg.lifetime)]))
  }

  /** One line: a compliant header is skipped, any other header ends the task with False. */
  function OnLine(cfg: Config, st: State, line: Line): Progress
  {
    match line
    case Header => Progress(None, st)
    case BadHeader => Progress(Some(ReturnedFalse), st)
    case Malformed => Progress(Some(Raising), st)
    case Entry(p, did) => OnEntry(cfg, st, p, did)
  }

  /** The lines in order, up to the first that ends the task. */
  function OnLines(cfg: Config, st: State, lines: seq<string>): Progress
  {
    if lines == [] then Progress(None, st)
    else
      var r := OnLines(cfg, st, lines[..|lines| - 1]);
      if r.stop.Some? then r else OnLine(cfg, r.st, ParseLine(lines[|lines| - 1]))
  }

  /** `.`, `..` and every other name starting with '.' are not file lists. */
  predicate Hidden(name: string)
  {
    name == "." || name == ".." || (|name| >= 1 && name[0] == '.')
  }

  /**
    One directory entry: a hidden name is skipped; otherwise the list at `join(dir, name)`
    is read, its lines are registered, and only then is it deleted.
   */
  function OnList(cfg: Config, st: State, dir: string, name: string, read: string -> string): Progress
  {
    if Hidden(name) then Progress(None, st)
    else
      var path := Paths.Join(dir, name);
      var r := OnLines(cfg, st, ListLines(read(path)));
      if r.stop.Some? then r else Progress(None, r.st.(log := r.st.log + [Unlink(path)]))
  }

  /** The directory's entries in order, up to the first that ends the task. */
  function OnListing(cfg: Config, st: State, dir: string, names: seq<string>, read: string -> string): Progress
  {
    if names == [] then Progress(None, st)
    else
      var r := OnListing(cfg, st, dir, names[..|names| - 1], read);
      if r.stop.Some? then r else OnList(cfg, r.st, dir, names[|names| - 1], read)
  }

  // ---------------------------------------------------------------- the task

  /** The selected protocol, `scheme://hostname` + prefix. */
  function Selected(k: Kwargs): string
    requires Complete(k)
  {
    k.scheme.value + "://" + k.hostname.value + k.prefix.value
  }

  /** One entry against the catalogue `cat`, appending to `log0`. */
  method RegisterEntry(cfg: Config, cat: Catalogue, log0: seq<Action>, p: Pfn, did: string)
    returns (stop: Option<Ending>, log: seq<Action>)
    requires cfg.listFails == cat.listFails && cfg.addFails == cat.addFails
    modifies cat
    ensures Progress(stop, State(cat.dids, cat.added, log)) == OnEntry(cfg, State(old(cat.dids), old(cat.added), log0), p, did)
  {
    var t := RucioWrappers.SplitDid(did);
    if t.None? {
      return Some(Raising), log0;
    }
    log := log0 + [AddReplica(cfg.rse, did, AbsPath(p))];
    CreateIdempotent(cat.dids, cat.added, cat.listFails, cat.addFails, t.value.scope, cfg.datasetName, "DATASET",
                     cfg.today);
    var dataset := cat.CreateCollection(t.value.scope, cfg.datasetName, "DATASET", cfg.today);
    if dataset.None? {
      return Some(Raising), log;
    }
    var payload := RucioWrappers.AttachPayload(dataset.value, did);
    if payload.None? {
      return Some(Raising), log;
    }
    log := log + [Attach(dataset.value, did), AddRule(did, 1, cfg.rse, cfg.lifetime)];
    stop := None;
  }

  /** The lines of one list, in order, up to the first that ends the task. */
  method RegisterLines(cfg: Config, cat: Catalogue, log0: seq<Action>, lines: seq<string>)
    returns (stop: Option<Ending>, log: seq<Action>)
    requires cfg.listFails == cat.listFails && cfg.addFails == cat.addFails
    modifies cat
    ensures Progress(stop, State(cat.dids, cat.added, log)) == OnLines(cfg, State(old(cat.dids), old(cat.added), log0), lines)
  {
    ghost var st0 := State(cat.dids, cat.added, log0);
    stop, log := None, log0;
    var i := 0;
    while i < |lines|
      invariant 0 <= i <= |lines|
      invariant OnLines(cfg, st0, lines[..i]) == Progress(stop, State(cat.dids, cat.added, log)) && stop.None?
    {
      OnLinesSnoc(cfg, st0, lines, i);
      stop, log := RegisterLine(cfg, cat, log, ParseLine(lines[i]));
      if stop.Some? {
        LinesStopAt(cfg, st0, lines, i);
        return;
      }
      i := i + 1;
    }
    assert lines[..i] == lines;
  }

  /** One parsed line: `entry.startswith("#")` decides a header, otherwise `entry.split("\t")`. */
  method RegisterLine(cfg: Config, cat: Catalogue, log0: seq<Action>, line: Line)
    returns (stop: Option<Ending>, log: seq<Action>)
    requires cfg.listFails == cat.listFails && cfg.addFails == cat.addFails
    modifies cat
    ensures Progress(stop, State(cat.dids, cat.added, log)) == OnLine(cfg, State(old(cat.dids), old(cat.added), log0), line)
  {
    match line {
      case Header =>
        return None, log0;
      case BadHeader =>
        return Some(ReturnedFalse), log0;
      case Malformed =>
        return Some(Raising), log0;
      case Entry(p, did) =>
        stop, log := RegisterEntry(cfg, cat, log0, p, did);
    }
  }

  /** The lines up to `i` inclusive: those before it, then line `i` unless they ended the task. */
  lemma OnLinesSnoc(cfg: Config, st: State, lines: seq<string>, i: nat)
    requires i < |lines|
    ensures OnLines(cfg, st, lines[..i + 1])
      == var r := OnLines(cfg, st, lines[..i]); if r.stop.Some? then r else OnLine(cfg, r.st, ParseLine(lines[i]))
  {
    assert lines[..i + 1][..i] == lines[..i];
  }

  /** A task ended at line `i` ends with the same state after all lines. */
  lemma LinesStopAt(cfg: Config, st: State, lines: seq<string>, i: nat)
    requires i < |lines| && OnLines(cfg, st, lines[..i + 1]).stop.Some?
    ensures OnLines(cfg, st, lines) == OnLines(cfg, st, lines[..i + 1])
  {
    LinesStop(cfg, st, lines[..i + 1], lines[i + 1..]);
    assert lines[..i + 1] + lines[i + 1..] == lines;
  }

  /** One directory entry: skip it, or register its list and then delete it. */
  method RegisterList(cfg: Config, cat: Catalogue, log0: seq<Action>, dir: string, name: string,
                      read: string -> string)
    returns (stop: Option<Ending>, log: seq<Action>)
    requires cfg.listFails == cat.listFails && cfg.addFails == cat.addFails
    modifies cat
    ensures Progress(stop, State(cat.dids, cat.added, log))
      == OnList(cfg, State(old(cat.dids), old(cat.added), log0), dir, name, read)
  {
    if name == "." || name == ".." || (|name| >= 1 && name[0] == '.') {
      return None, log0;
    }
    var path := Paths.Join(dir, name);
    var contents := ListLines(read(path));
    stop, log := RegisterLines(cfg, cat, log0, contents);
    if stop.None? {
      log := log + [Unlink(path)];
    }
  }

  /**
    `run(args, kwargs)`, with `protocols` what the RSE offers, `names` the listing of the
    list directory, `read` the contents of each list, `today` the date of a default
    dataset name, and `cat` the Rucio catalogue of collections. A missing kwarg or an
    unsupported protocol returns False before any call; otherwise the lists are
    registered in listing order.
   */
  method Run(k: Kwargs, protocols: seq<Protocol>, names: seq<string>, read: string -> string, today: string,
             cat: Catalogue)
    returns (end: Ending, log: seq<Action>)
    modifies cat
    ensures !Supported(k, protocols) ==>
      end == ReturnedFalse && log == [] && cat.dids == old(cat.dids) && cat.added == old(cat.added)
    ensures Supported(k, protocols) ==>
      var cfg := Config(k.rse.value, k.lifetime.value, k.datasetName.value, today, cat.listFails, cat.addFails);
      var r := OnListing(cfg, State(old(cat.dids), old(cat.added), []), Paths.Join(Selected(k), k.filelistDir.value),
                         names, read);
      end == (if r.stop.Some? then r.stop.value else Finished)
      && log == r.st.log && cat.dids == r.st.dids && cat.added == r.st.added
  {
    if !Complete(k) {
      return ReturnedFalse, [];
    }
    var selected := SelectProtocol(protocols, k.scheme.value, k.hostname.value, k.prefix.value);
    if selected.None? {
      return ReturnedFalse, [];
    }
    var cfg := Config(k.rse.value, k.lifetime.value, k.datasetName.value, today, cat.listFails, cat.addFails);
    var stop;
    stop, log := RegisterListing(cfg, cat, Paths.Join(selected.value, k.filelistDir.value), names, read);
    end := if stop.Some? then stop.value else Finished;
  }

  /** The loop over the listing: each list registered in turn, until one ends the task. */
  method RegisterListing(cfg: Config, cat: Catalogue, dir: string, names: seq<string>, read: string -> string)
    returns (stop: Option<Ending>, log: seq<Action>)
    requires cfg.listFails == cat.listFails && cfg.addFails == cat.addFails
    modifies cat
    ensures OnListing(cfg, State(old(cat.dids), old(cat.added), []), dir, names, read)
      == Progress(stop, State(cat.dids, cat.added, log))
  {
    ghost var st0 := State(cat.dids, cat.added, []);
    log := [];
    var i := 0;
    while i < |names|
      invariant 0 <= i <= |names|
      invariant OnListing(cfg, st0, dir, names[..i], read) == Progress(None, State(cat.dids, cat.added, log))
    {
      ListingStep(cfg, st0, dir, names, i, read);
      stop, log := RegisterList(cfg, cat, log, dir, names[i], read);
      if stop.Some? {
        ListingStop(cfg, st0, dir, names[..i + 1], names[i + 1..], read);
        TakeDrop(names, i + 1);
        return;
      }
      i := i + 1;
    }
    assert names[..i] == names;
    stop := None;
  }

  // ---------------------------------------------------------------- properties

  /** Once a line has ended the task, the lines after it change nothing. */
  lemma {:induction false} LinesStop(cfg: Config, st: State, lines: seq<string>, more: seq<string>)
    requires OnLines(cfg, st, lines).stop.Some?
    ensures OnLines(cfg, st, lines + more) == OnLines(cfg, st, lines)
    decreases |more|
  {
    if more == [] {
      assert lines + more == lines;
    } else {
      var n := |more| - 1;
      assert (lines + more)[..|lines + more| - 1] == lines + more[..n];
      LinesStop(cfg, st, lines, more[..n]);
    }
  }

  /** The listing's prefix grows by one name. */
  lemma ListingStep(cfg: Config, st: State, dir: string, names: seq<string>, i: nat, read: string -> string)
    requires i < |names|
    ensures var r := OnListing(cfg, st, dir, names[..i], read);
      OnListing(cfg, st, dir, names[..i + 1], read)
        == if r.stop.Some? then r else OnList(cfg, r.st, dir, names[i], read)
  {
    assert names[..i + 1][..i] == names[..i];
  }

  /** Likewise for the entries of the directory: once one has ended the task, the later ones change nothing. */
  lemma {:induction false} ListingStop(cfg: Config, st: State, dir: string, names: seq<string>, more: seq<string>,
                                       read: string -> string)
    requires OnListing(cfg, st, dir, names, read).stop.Some?
    ensures OnListing(cfg, st, dir, names + more, read) == OnListing(cfg, st, dir, names, read)
    decreases |more|
  {
    if more == [] {
      assert names + more == names;
    } else {
      var n := |more| - 1;
      assert (names + more)[..|names + more| - 1] == names + more[..n];
      ListingStop(cfg, st, dir, names, more[..n], read);
    }
  }

  /** `b` is `a` followed by calls that delete no list. */
  predicate Extends(a: seq<Action>, b: seq<Action>)
  {
    |b| >= |a| && b[..|a|] == a && forall j :: |a| <= j < |b| ==> !b[j].Unlink?
  }

  lemma ExtendsTrans(a: seq<Action>, b: seq<Action>, c: seq<Action>)
    requires Extends(a, b) && Extends(b, c)
    ensures Extends(a, c)
  {
    assert c[..|a|] == c[..|b|][..|a|];
  }

  lemma LineExtends(cfg: Config, st: State, line: Line)
    ensures Extends(st.log, OnLine(cfg, st, line).st.log)
  {
    match line
    case Header =>
    case BadHeader =>
    case Malformed =>
    case Entry(p, did) => EntryExtends(cfg, st, p, did);
  }

  lemma EntryExtends(cfg: Config, st: State, p: Pfn, did: string)
    ensures Extends(st.log, OnEntry(cfg, st, p, did).st.log)
  {
  }

  /** Registering lines only appends replica, attach and rule calls to the log: it deletes nothing. */
  lemma {:induction false} LinesKeepLists(cfg: Config, st: State, lines: seq<string>)
    ensures Extends(st.log, OnLines(cfg, st, lines).st.log)
  {
    if lines != [] {
      var r := OnLines(cfg, st, lines[..|lines| - 1]);
      LinesKeepLists(cfg, st, lines[..|lines| - 1]);
      if r.stop.None? {
        var l := ParseLine(lines[|lines| - 1]);
        LineExtends(cfg, r.st, l);
        ExtendsTrans(st.log, r.st.log, OnLine(cfg, r.st, l).st.log);
      }
    }
  }

  /**
    A list is deleted only after all its lines went through: when the task goes on, the
    log is the lines' calls followed by the list's deletion; when a line ended the task,
    the list is not deleted.
   */
  lemma UnlinkLast(cfg: Config, st: State, dir: string, name: string, read: string -> string)
    requires !Hidden(name)
    ensures var path := Paths.Join(dir, name);
      var lines := OnLines(cfg, st, ListLines(read(path)));
      var r := OnList(cfg, st, dir, name, read);
      (r.stop.None? ==> r.st.log == lines.st.log + [Unlink(path)])
      && (r.stop.Some? ==> r == lines && forall j :: |st.log| <= j < |r.st.log| ==> !r.st.log[j].Unlink?)
  {
    LinesKeepLists(cfg, st, ListLines(read(Paths.Join(dir, name))));
  }

  // ---------------------------------------------------------------- uploaded lists

  /** The dataset every entry of `scope` is attached to. */
  function DatasetOf(cfg: Config, scope: string): string
  {
    scope + ":" + CollectionName(cfg.datasetName, "DATASET", cfg.today)
  }

  /** The calls that register the files `ps` of `scope`, in order. */
  function Registered(cfg: Config, dataset: string, scope: string, ps: seq<Pfn>): seq<Action>
  {
    if ps == [] then []
    else
      var n := |ps| - 1;
      Registered(cfg, dataset, scope, ps[..n]) + EntryActions(cfg, dataset, scope + ":" + ps[n].name, AbsPath(ps[n]))
  }

  /** A catalogue that lists and adds: each plain entry is registered into its scope's dataset. */
  lemma EntryRegisters(cfg: Config, st: State, scope: string, p: Pfn)
    requires !cfg.listFails && !cfg.addFails
    requires ':' !in scope && ' ' !in scope && ':' !in p.name && ' ' !in p.name
    ensures var d := DatasetOf(cfg, scope); var did := scope + ":" + p.name;
      OnEntry(cfg, st, p, did)
      == Progress(None, State(st.dids + {d}, if d in st.dids then st.added else st.added + [(d, "DATASET")],
                              st.log + EntryActions(cfg, d, did, AbsPath(p))))
  {
    var did := scope + ":" + p.name;
    RucioWrappers.SplitDidString(RucioWrappers.Did(scope, p.name));
    assert RucioWrappers.DidString(RucioWrappers.Did(scope, p.name)) == did;
    SplitSingle(did, " ");
    assert RucioWrappers.DidsOf([did]).Some?;
    var d := DatasetOf(cfg, scope);
    if d in st.dids {
      assert st.dids + {d} == st.dids;
    }
  }

  /**
    The state after registering the files `ps` of one scope from `st`: the scope's
    dataset is in the catalogue once there was a file, added if it was missing, and each
    file's three calls are logged in order.
   */
  function After(cfg: Config, st: State, scope: string, ps: seq<Pfn>): State
  {
    var d := DatasetOf(cfg, scope);
    State(if ps == [] then st.dids else st.dids + {d},
          if ps == [] || d in st.dids then st.added else st.added + [(d, "DATASET")],
          st.log + Registered(cfg, d, scope, ps))
  }

  /** One more file: its dataset is made sure of and its calls are appended. */
  lemma AfterSnoc(cfg: Config, st: State, scope: string, ps: seq<Pfn>, p: Pfn)
    ensures var a := After(cfg, st, scope, ps); var d := DatasetOf(cfg, scope);
      After(cfg, st, scope, ps + [p])
      == State(a.dids + {d}, if d in a.dids then a.added else a.added + [(d, "DATASET")],
               a.log + EntryActions(cfg, d, scope + ":" + p.name, AbsPath(p)))
  {
    var d := DatasetOf(cfg, scope);
    assert (ps + [p])[..|ps|] == ps;
    AppendAssoc(st.log, Registered(cfg, d, scope, ps), EntryActions(cfg, d, scope + ":" + p.name, AbsPath(p)));
  }

  /**
    Registering the header and the lines of plain PFNs of one scope, with a catalogue
    that lists and adds: no line ends the task and the state is `After` them.
   */
  lemma {:induction false} HeaderAndLines(cfg: Config, st: State, scope: string, ps: seq<Pfn>)
    requires !cfg.listFails && !cfg.addFails && ':' !in scope && ' ' !in scope
    requires forall i :: 0 <= i < |ps| ==> Listable(scope, ps[i]) && ' ' !in ps[i].name
    ensures OnLines(cfg, st, [HeaderLine] + Lines(scope, ps)) == Progress(None, After(cfg, st, scope, ps))
  {
    if ps == [] {
      HeaderOnly(cfg, st);
    } else {
      var n := |ps| - 1;
      var prev, last, did := [HeaderLine] + Lines(scope, ps[..n]), FileLine(scope, ps[n]), scope + ":" + ps[n].name;
      LinesSnoc(scope, ps);
      AppendAssoc([HeaderLine], Lines(scope, ps[..n]), [last]);
      assert [HeaderLine] + Lines(scope, ps) == prev + [last];
      HeaderAndLines(cfg, st, scope, ps[..n]);
      var a := After(cfg, st, scope, ps[..n]);
      LineParses(scope, ps[n]);
      LinesStep(cfg, st, prev, last, ps[n], did);
      assert OnLines(cfg, st, prev + [last]) == OnEntry(cfg, a, ps[n], did);
      EntryRegisters(cfg, a, scope, ps[n]);
      AfterSnoc(cfg, st, scope, ps[..n], ps[n]);
      Snoc(ps);
      assert OnEntry(cfg, a, ps[n], did) == Progress(None, After(cfg, st, scope, ps));
    }
  }

  /** The header alone changes nothing. */
  lemma HeaderOnly(cfg: Config, st: State)
    ensures OnLines(cfg, st, [HeaderLine]) == Progress(None, st)
  {
    assert [HeaderLine][..0] == [];
    HeaderParses();
  }

  /** A line read as an entry, after lines that did not end the task, registers that entry. */
  lemma LinesStep(cfg: Config, st: State, lines: seq<string>, l: string, p: Pfn, did: string)
    requires OnLines(cfg, st, lines).stop.None? && ParseLine(l) == Entry(p, did)
    ensures OnLines(cfg, st, lines + [l]) == OnEntry(cfg, OnLines(cfg, st, lines).st, p, did)
  {
    assert (lines + [l])[..|lines|] == lines;
  }

  /**
    The register task reads back every list the upload task writes for one scope: when
    the catalogue lists and adds and no name holds a space, each listed file is
    registered in order and the list is deleted after them.
   */
  lemma RegistersUploadedList(cfg: Config, st: State, dir: string, name: string, read: string -> string,
                              scope: string, ps: seq<Pfn>)
    requires !Hidden(name) && read(Paths.Join(dir, name)) == FileListText(scope, ps)
    requires !cfg.listFails && !cfg.addFails && ':' !in scope && ' ' !in scope
    requires forall i :: 0 <= i < |ps| ==> Listable(scope, ps[i]) && ' ' !in ps[i].name
    ensures var a := After(cfg, st, scope, ps);
      OnList(cfg, st, dir, name, read) == Progress(None, a.(log := a.log + [Unlink(Paths.Join(dir, name))]))
  {
    forall i | 0 <= i < |ps| ensures Plain(scope, ps[i]) {
    }
    ListedLines(scope, ps);
    HeaderAndLines(cfg, st, scope, ps);
  }
}
