# rucio-analysis, modelled in Dafny

rucio-analysis runs test and monitoring tasks against a Rucio data-management
installation. The tasks cover several jobs:

- Upload files and add replication rules.
- Record every rule in an Elasticsearch index.
- Re-poll the rules that are not done yet, adding the replication duration and the FTS throughput.
- Post daily reports and stuck-rule alarms to Slack.
- Probe FTS transfers and service heartbeats.
- Keep Rucio accounts in step with an IAM server.
- Answer a Slack bot.

This project models the bookkeeping and decision logic of those tasks and proves what
each one promises. Every external service becomes an in-memory value or object:

- the Rucio server is a `Grid` of rules, replicas, contents and requests (`RucioWrappers`);
- an Elasticsearch index is an `EsStore.Store` object over a map from document key to document;
- an IAM server is a sequence of pages;
- the account store is the `SyncIam.Rucio` object;
- storage and the storage-side file lists are action logs.

Clocks, UUIDs and random file names are parameters.

## Modules

One module per source file of the core, plus shared foundations:

| module | models |
|---|---|
| `Wrappers`, `Text`, `Paths`, `Values` | Python's `None`, the `str` operations the code uses (`split`, `join`, `strip`, `find`), `os.path`, and JSON-like documents |
| `Tasks` | how a task ends: returning False, finishing, `exit()`, or an exception left to propagate |
| `EsStore` | the `_index`, `_get`, `_search` and `_update` helpers over one index |
| `StateFlags`, `RuleDocs` | the state-to-flag rule and the pieces of a rule document shared by the three indexer versions |
| `RucioWrappers`, `Helpers` | `common/rucio/wrappers.py` and `common/rucio/helpers.py` |
| `EsRucio`, `EsLegacy`, `Db` | the indexer in `common/es/rucio.py` and its two older versions in `es.py` and `db.py` |
| `SyncDatabase`, `Comms` | the re-polling loops in `tasks/sync/database.py` and `tasks/comms.py` |
| `Reports`, `ReportDaily`, `ReportLegacy` | the shared count and block logic, the daily report and the legacy report |
| `Alarms`, `SlackBot` | the stuck-rule alarm and the Slack bot |
| `ProbeFts`, `ProbeHeartbeats` | the FTS transfer and service heartbeat probes |
| `SyncIam` | the IAM to Rucio account synchronisation |
| `Pfns`, `Cells`, `Lfn2Pfn`, `LfnPfnSpoofer` | PFNs, the project × dataset × file grid, and the two PFN generators |
| `FileLists`, `UploadNondeterministic`, `RegisterNondeterministic` | the PFN list the nondeterministic upload writes and the register task parses back |

## Modelling decisions

- Each way a task can end is an outcome of its own: a missing configuration key, each
  `return False`, each `exit()` and each propagated exception. The error paths the model does
  not state are listed under "Left out".
- Timestamps are integer seconds. A date-math bound of a search (`now-1d`) is taken as an
  already resolved integer. The `@timestamp` field is in milliseconds.
- The throughput statistics (numpy mean, median and standard deviation) are kept as the list
  of samples they are computed from. Only their presence and the samples are stated.
- `src/rucio_wrappers.py`, which `es.py` and `db.py` import, defines no `listReplicationRules`,
  `ruleInfo` or `listFileReplicas`. Those two versions are therefore given the same Rucio
  client as `common/es/rucio.py`.
- A search returns each matching document once, at most `max_rows` of them, in an order the
  store chooses. Every property proved holds for any order of the hits.
- The multiprocessing pool of `tasks/sync/database.py` is modelled as a sequential loop. Each
  worker's exception is swallowed, as `apply_async` without `get` does.
- In `tasks/reports/daily.py` a database type other than `es` leaves `nDocsAsSrc` unbound.
  The first RSE line then raises a `NameError` when a Slack webhook exists, and the model shows it.
- In `slackbot.py` the imports of `ES` and `RucioWrappersAPI` are commented out. So
  `show information for` always raises, and `show replications for` raises unless it has
  at least four tokens and a non-`es` database. The tally, percentage and partner rules of
  those branches are modelled as functions of the hits.
- The bot's default `-rses` string has no `, ` between `LAPP-DCACHE` and `PIC-DCACHE`. The split
  list is modelled as written, with those two joined in one entry (`SlackBot.DefaultRseList`).
- The IAM paging loop makes at most `maxRequests` requests, a parameter of the model. A server
  that is still reporting more results after that many pages gives `None`.

## Model

| member | source | states |
|---|---|---|
| Paths.JoinAllAvoids | src/common/rucio/lfnpfn_spoofer.py:78-84 | `os.path.join` adds no character but `/` to its parts |
| Paths.BasenameJoin | src/common/rucio/lfn2pfn.py:88-96 | the basename of a directory joined with a name without `/` is that name |
| Paths.DirnameJoin | src/common/rucio/pfn.py:41-43 | the dirname of a directory joined with a name without `/` is the directory without its trailing slashes |
| RucioWrappers.SplitDid | src/common/rucio/wrappers.py:367-369 | `did.split(":")` indexed at 0 and 1 raises exactly when the string has no ':'; otherwise scope and name are the first two ':'-free pieces and `scope:name` starts the string |
| RucioWrappers.SplitDidShape | src/common/rucio/wrappers.py:367-369 | a string holding ':' splits into at least two pieces whose first two, joined by ':', start the string |
| RucioWrappers.SplitDidString | src/common/rucio/wrappers.py:367-369 | formatting a DID with ':'-free scope and name as `scope:name` and splitting it again gives the DID back |
| RucioWrappers.ListReplicationRules | src/common/rucio/wrappers.py:547-559 | listing a DID's rules raises exactly when the DID string has no ':' |
| RucioWrappers.RuleInfo | src/common/rucio/wrappers.py:607-612 | `get_replication_rule` succeeds exactly for a string id the server holds |
| RucioWrappers.ListFileReplicas | src/common/rucio/wrappers.py:533-545 | listing replicas raises exactly when the DID has no ':' or the RSE expression is neither a string nor None; with None it returns the DID's replicas on every RSE, with a string those matching the expression, and none when Rucio knows none |
| RucioWrappers.ListContent | src/common/rucio/wrappers.py:505-512 | listing a DID's content succeeds exactly for a DID the server holds |
| RucioWrappers.RequestExternalId | src/common/rucio/wrappers.py:465-472 | the request history's `external_id` is found exactly when the DID splits, the RSE is a string and the server holds a request for the pair |
| RucioWrappers.DidsOf | src/common/rucio/wrappers.py:372-376 | the space-separated tokens give one DID each, in order, each the split of its token; the list is rejected exactly when some token has no ':' |
| RucioWrappers.AttachPayload | src/common/rucio/wrappers.py:365-395 | the `attach`/`detach` payload exists exactly when the parent and every token split, and is then the parent's DID with the tokens' DIDs in order |
| RucioWrappers.DidsOfUnique | src/common/rucio/wrappers.py:372-376 | any list of DIDs that agrees token by token with the splits is the one the loop builds |
| RucioWrappers.DidListRoundTrip | src/common/rucio/wrappers.py:372-376 | a non-empty DID list with ':'- and space-free parts, rendered space-separated, parses back to the same list |
| RucioWrappers.FilterPair | src/common/rucio/wrappers.py:520-522 | a pair yields a key and a value exactly when it splits into at least two pieces on '=' |
| RucioWrappers.PairTokens | src/common/rucio/wrappers.py:519-520 | one '='-split per comma-separated pair, in order |
| RucioWrappers.PairHasValue | src/common/rucio/wrappers.py:520-522 | a pair has a value piece exactly when it contains '=' |
| RucioWrappers.PairsDictFails | src/common/rucio/wrappers.py:518-523 | parsing a filter string raises exactly when some pair has no '=' |
| RucioWrappers.PairsDictLastWins | src/common/rucio/wrappers.py:518-523 | in the parsed dictionary each stripped key holds the stripped value of the last pair with that key |
| RucioWrappers.ListDidsApi | src/common/rucio/wrappers.py:514-531 | the API `listDIDs` raises exactly when the filter string does not parse; otherwise one `scope:name` per name the server lists for the parsed filters, in order |
| RucioWrappers.NonEmpty | src/common/rucio/wrappers.py:203-205 | the kept lines are all non-empty |
| RucioWrappers.ListDidsCli | src/common/rucio/wrappers.py:197-206 | the CLI `listDIDs` raises exactly on a non-zero return code; otherwise it returns the non-empty lines of stdout in order |
| RucioWrappers.CliListingRoundTrip | src/common/rucio/wrappers.py:200-206 | the `--short` listing of non-empty names without newlines is parsed back to exactly those names |
| RucioWrappers.OptValueFlags | src/common/rucio/wrappers.py:153-158 | each of the three optional flags, when present, is followed by its own value, whatever the others are |
| RucioWrappers.AddRuleArgv | src/common/rucio/wrappers.py:147-168 | the CLI `addRule` command line starts `rucio add-rule` and ends with did, copies and RSE; it carries each truthy option exactly once after its flag, and reading it back gives the call's arguments |
| RucioWrappers.CheckReturnCode | src/common/rucio/wrappers.py:165-167 | a CLI call succeeds exactly on return code 0 and then returns its output |
| RucioWrappers.Erase | src/common/rucio/wrappers.py:404-414 | `erase` raises exactly when listing the rules raises; otherwise it deletes each distinct rule id of the DID exactly once |
| RucioWrappers.ParseFilterPairs | src/common/rucio/wrappers.py:520-524 | the filter loop gives the dictionary the pairs define, a later key winning, or None when a pair has no `=` |
| RucioWrappers.ScopedDids | src/common/rucio/wrappers.py:527-530 | one DID per listed name, in order, each `scope:name` |
| FileLists.SelectProtocol | src/tasks/tests/upload_nondeterministic.py:49-60 | a protocol is selected exactly when the RSE lists one with the requested scheme, hostname and prefix, and it is then `scheme://hostname` + prefix |
| FileLists.ContentSnoc | src/tasks/tests/upload_nondeterministic.py:88-93 | each uploaded file appends exactly its `<pfn>\t<scope>:<name>` line and a newline to the list |
| FileLists.HeaderParses | src/tasks/tests/register_nondeterministic.py:73-78 | the `# pfn did` header written by the upload is the header the registration accepts |
| FileLists.LineSplits | src/tasks/tests/register_nondeterministic.py:80 | a line written for a PFN with tab-free parts splits on the tab into exactly its absolute path and its DID |
| FileLists.LineParses | src/tasks/tests/register_nondeterministic.py:80-81 | a written line for a PFN in normal form parses back to the same PFN and the DID `scope:name` |
| FileLists.PlainRoundTrip | src/common/rucio/pfn.py:14-35 | a PFN rebuilt from its own parts with tab- and newline-free names survives rendering and re-parsing |
| FileLists.JoinedSplit | src/tasks/tests/register_nondeterministic.py:64-68 | lines without newlines joined by newlines split back into the same lines |
| FileLists.ContentEnd | src/tasks/tests/register_nondeterministic.py:64-68 | stripping trailing CR/LF from the written list removes exactly the final newline |
| FileLists.ListedLines | src/tasks/tests/register_nondeterministic.py:64-68 | reading the written list gives the header followed by one line per uploaded file, in order |
| FileLists.LinesParse | src/tasks/tests/register_nondeterministic.py:72-81 | every file line parses to its own PFN and DID |
| FileLists.UploadListParses | src/tasks/tests/upload_nondeterministic.py:83-93 | the file list an upload writes is read by the registration as its header and then, in upload order, exactly one entry per uploaded PFN with DID `scope:name` |
| FileLists.ParseLine | src/tasks/tests/register_nondeterministic.py:72-81 | defines how one list line is read; stated by `HeaderParses`, `LineParses` and `LinesParse` |
| Pfns.MakePfn | src/common/rucio/pfn.py:5-12 | the constructor leaves scheme and hostname free of edge slashes and the name free of leading slashes; a `root` directory is one slash followed by a trimmed path, any other directory is trimmed |
| Pfns.StripSlashesTrimmed | src/common/rucio/pfn.py:9-11 | `lstrip('/').rstrip('/')` leaves no slash at either end |
| Pfns.StripTrimmed | src/common/rucio/pfn.py:9-11 | stripping changes nothing on a trimmed path, and removes exactly one added leading slash |
| Pfns.MakePfnIdempotent | src/common/rucio/pfn.py:5-12 | constructing a PFN again from its own properties gives the same PFN |
| Pfns.AbsPathShape | src/common/rucio/pfn.py:26-35 | with an empty directory the absolute path is `scheme://host/name`; with the `root` directory `/` it is `scheme://host//name` |
| Pfns.DirNameMeans | src/common/rucio/pfn.py:41-43 | `dirname` is the absolute path with the name removed and trailing slashes stripped |
| Pfns.FromAbsPathRest | src/common/rucio/pfn.py:14-24 | an absolute path with a single `://` is split there into the scheme and the rest |
| Pfns.RestSegments | src/common/rucio/pfn.py:18-23 | after the scheme, the path splits on '/' into the hostname, the directory's segments and the name |
| Pfns.AbsPathRoundTrip | src/common/rucio/pfn.py:14-35 | for parts without ':' (and '/' where it separates), `fromabspath(abspath)` gives back the PFN the constructor made |
| Pfns.FromAbsPath | src/common/rucio/pfn.py:14-24 | defines `fromabspath`; stated by `FromAbsPathRest`, `RestSegments` and `AbsPathRoundTrip` |
| Pfns.AbsPath | src/common/rucio/pfn.py:26-35 | defines `abspath`; stated by `AbsPathShape` and `AbsPathRoundTrip` |
| Pfns.NormalRoundTrip | src/common/rucio/pfn.py:14-35 | `fromabspath` of the absolute path of a PFN in normal form gives that PFN back |
| Cells.GridLength | src/common/rucio/lfnpfn_spoofer.py:74-76 | three nested `range` loops visit `np · nd · nf` cells |
| Cells.GridCell | src/common/rucio/lfnpfn_spoofer.py:74-86 | cell (pi, di, fi) is visited at position `(pi · nd + di) · nf + fi`: projects outermost, files innermost |
| Cells.MapAppend | src/common/rucio/lfn2pfn.py:84-96 | what the loops produce for two runs of cells one after the other is the concatenation of what each produces |
| Lfn2Pfn.NamesAt | src/common/rucio/lfn2pfn.py:52-57 | one file name per PFN, each its basename |
| Lfn2Pfn.DirsAt | src/common/rucio/lfn2pfn.py:45-50 | one directory per PFN, each its dirname |
| Lfn2Pfn.DidsAt | src/common/rucio/lfn2pfn.py:35-43 | one DID per PFN, each `scope:` followed by the PFN's file name |
| Lfn2Pfn.SpoofedDid | src/common/rucio/lfn2pfn.py:87-96 | the DID derived from a spoofed PFN is `scope:` followed by the name of the random file made for it |
| Lfn2Pfn.SpoofedAt | src/common/rucio/lfn2pfn.py:84-96 | the spoofer's PFN and file lists both have `np · nd · nf` entries, and cell (pi, di, fi) sits at the same position in both |
| Lfn2Pfn.Registry.constructor | src/common/rucio/lfn2pfn.py:9-15 | a new registry keeps its parameters and starts with no PFNs and no files |
| Lfn2Pfn.Registry.Insert | src/common/rucio/lfn2pfn.py:59-61 | `insert` appends the PFN and its file at the same index, and nothing else changes |
| Lfn2Pfn.Registry.GetDids | src/common/rucio/lfn2pfn.py:35-43 | the loop returns the DID of every PFN, in order |
| Lfn2Pfn.Registry.GetDirectories | src/common/rucio/lfn2pfn.py:45-50 | the loop returns the directory of every PFN, in order |
| Lfn2Pfn.Registry.GetFilenames | src/common/rucio/lfn2pfn.py:52-57 | the loop returns the file name of every PFN, in order |
| Lfn2Pfn.Registry.InsertDataset | src/common/rucio/lfn2pfn.py:86-96 | the inner loop appends the PFN and random file of every file of one dataset, in order |
| Lfn2Pfn.Registry.InsertProject | src/common/rucio/lfn2pfn.py:85-96 | the middle loop appends every dataset of one project, in order |
| Lfn2Pfn.Registry.SpoofGeneric | src/common/rucio/lfn2pfn.py:65-96 | a missing kwarg raises and inserts nothing; otherwise every cell of the grid is appended, projects outermost, each PFN under `scheme://host<prefix>/scope/<prefix>_<timestamp>/project<pi>/dataset<di>/<file>`, and PFNs and files stay aligned |
| Lfn2Pfn.Registry.InsertGrid | src/common/rucio/lfn2pfn.py:84-96 | the outer loop appends the PFN and random file of every cell of the grid, in order |
| LfnPfnSpoofer.ComponentsAt | src/common/rucio/lfnpfn_spoofer.py:35-45 | `zip(*mapping)` gives one LFN and one PFN per pair, in the pairs' order |
| LfnPfnSpoofer.ZipComponents | src/common/rucio/lfnpfn_spoofer.py:35-45 | zipping the `lfns` and `pfns` properties gives the mapping back |
| LfnPfnSpoofer.ComponentsZip | src/common/rucio/lfnpfn_spoofer.py:88-92 | a mapping built by zipping two lists of one length has those lists as its `lfns` and `pfns` |
| LfnPfnSpoofer.NewPairsAt | src/common/rucio/lfnpfn_spoofer.py:71-92 | a spoof adds `np · nd · nf` pairs, and the one at cell (pi, di, fi)'s position holds that cell's PFN with the local file made at that position |
| LfnPfnSpoofer.SpoofedPfnName | src/common/rucio/lfnpfn_spoofer.py:85-86 | the spoofed name `<fi>_<uuid>` survives the PFN constructor unchanged |
| LfnPfnSpoofer.Spoofer.constructor | src/common/rucio/lfnpfn_spoofer.py:12-18 | a new spoofer keeps its parameters and has an empty mapping |
| LfnPfnSpoofer.Spoofer.Lfns | src/common/rucio/lfnpfn_spoofer.py:35-39 | the `lfns` property raises exactly when the mapping is empty |
| LfnPfnSpoofer.Spoofer.Pfns | src/common/rucio/lfnpfn_spoofer.py:41-45 | the `pfns` property raises exactly when the mapping is empty |
| LfnPfnSpoofer.DatasetPfns | src/common/rucio/lfnpfn_spoofer.py:76-86 | the innermost loop appends the PFN of every file of one dataset, in order |
| LfnPfnSpoofer.ProjectPfns | src/common/rucio/lfnpfn_spoofer.py:75-86 | the middle loop appends every dataset of one project, in order |
| LfnPfnSpoofer.Spoofer.Spoof | src/common/rucio/lfnpfn_spoofer.py:57-92 | a missing kwarg returns False and leaves the mapping unchanged; otherwise the mapping gains one (local file, PFN) pair per grid cell, projects outermost |
| Helpers.CollectionNameMeans | src/common/rucio/helpers.py:14-19 | a given name is used unchanged; a default name ends in today's date and has the `container_` prefix exactly for a CONTAINER |
| Helpers.CreateIdempotent | src/common/rucio/helpers.py:21-45 | a successful call returns `scope:name`, which is then in the catalogue; at most that DID is added; calling again adds nothing and returns the same DID |
| Helpers.Catalogue.constructor | src/common/rucio/helpers.py:12 | a catalogue starts with the given DIDs and no `addDID` calls |
| Helpers.Catalogue.CreateCollection | src/common/rucio/helpers.py:7-45 | a failing listing or `addDID` gives False; a listed DID is returned without adding; otherwise it is added with its type and returned |
| Helpers.Create | src/common/rucio/helpers.py:21-45 | defines the whole `createCollection` call; stated by `CreateIdempotent` and `Catalogue.CreateCollection` |
| UploadNondeterministic.LookupClass | src/tasks/tests/upload_nondeterministic.py:64-75 | `getattr` on the spoofer module finds the testing spoofer exactly for its class name, and nothing for a name the module does not define; a name every module has (`__doc__`, `__init__` and the other module and `ModuleType` attributes) is found but is not the spoofer, so the call raises |
| UploadNondeterministic.CopiesAt | src/tasks/tests/upload_nondeterministic.py:88-91 | each (LFN, PFN) pair gives exactly two storage actions, a `mkdir_rec` of the PFN's directory and then a copy of the local file to it, in pair order |
| UploadNondeterministic.ListPathIn | src/tasks/tests/upload_nondeterministic.py:99-109 | the file list is written as `run_<timestamp>` directly inside the list directory under the selected protocol, the directory made just before |
| UploadNondeterministic.CopiesSnoc | src/tasks/tests/upload_nondeterministic.py:88-93 | the upload loop adds one pair's actions, and one PFN to the list, per step |
| UploadNondeterministic.Run | src/tasks/tests/upload_nondeterministic.py:18-112 | a missing kwarg or unsupported protocol returns False and does nothing; an unknown class returns False; a class that cannot be built raises; an empty spoof raises on `lfns`; otherwise every file is copied in order, then the list directory is made and the file list, holding the header and one line per PFN, is copied to `run_<timestamp>` |
| UploadNondeterministic.SpoofedListable | src/tasks/tests/upload_nondeterministic.py:77-93 | with tab-, newline- and ':'-free inputs, every spoofed PFN can be written to the file list and read back |
| UploadNondeterministic.SpoofedPfns | src/tasks/tests/upload_nondeterministic.py:88 | the PFNs the upload visits are exactly the spoofed grid's PFNs, projects outermost |
| UploadNondeterministic.UploadedListParses | src/tasks/tests/upload_nondeterministic.py:83-93 | the file list an upload writes reads back as the header and then one entry per spoofed PFN, with DID `scope:name`, in upload order |
| RegisterNondeterministic.RegisterEntry | src/tasks/tests/register_nondeterministic.py:80-98 | one entry adds its replica, makes sure its dataset exists, attaches the DID and adds the rule, or stops where `createCollection` fails |
| RegisterNondeterministic.RegisterLine | src/tasks/tests/register_nondeterministic.py:72-98 | a header line other than `pfn did` returns False, a correct header is skipped, a line that is not two tab-separated fields, or whose path has no `://`, raises; an entry is registered |
| RegisterNondeterministic.RegisterLines | src/tasks/tests/register_nondeterministic.py:72-98 | the entry loop processes the lines in order and stops at the first one that ends the task |
| RegisterNondeterministic.OnLinesSnoc | src/tasks/tests/register_nondeterministic.py:72-98 | processing one more line continues from the state the earlier lines left, unless they already stopped |
| RegisterNondeterministic.LinesStop | src/tasks/tests/register_nondeterministic.py:72-98 | once a line ends the task, no later line has any effect |
| RegisterNondeterministic.RegisterList | src/tasks/tests/register_nondeterministic.py:59-101 | a hidden name is skipped; otherwise the file is read, its lines are processed, and it is unlinked if they did not stop the task |
| RegisterNondeterministic.UnlinkLast | src/tasks/tests/register_nondeterministic.py:100-101 | a file list is unlinked exactly when all its lines were processed, as the last action for it; a stopped list is never unlinked |
| RegisterNondeterministic.ListingStop | src/tasks/tests/register_nondeterministic.py:59-101 | once a file list ends the task, later lists have no effect |
| RegisterNondeterministic.LinesKeepLists | src/tasks/tests/register_nondeterministic.py:72-98 | processing lines only appends to the action log |
| RegisterNondeterministic.Run | src/tasks/tests/register_nondeterministic.py:17-104 | a missing kwarg or unsupported protocol returns False and changes nothing; otherwise the listing under `<protocol>/<filelist_dir>` is processed in order, and the task's end, action log and catalogue are those the processing gives |
| RegisterNondeterministic.EntryRegisters | src/tasks/tests/register_nondeterministic.py:80-98 | with a working catalogue, an entry adds the replica, the dataset `scope:<dataset_name>` if missing, the attachment and a one-copy rule with the lifetime |
| RegisterNondeterministic.AfterSnoc | src/tasks/tests/register_nondeterministic.py:72-98 | registering one more file adds exactly its three actions (replica, attach, rule) and at most its dataset |
| RegisterNondeterministic.HeaderAndLines | src/tasks/tests/register_nondeterministic.py:72-98 | a header followed by well-formed lines registers every file in order without stopping |
| RegisterNondeterministic.RegistersUploadedList | src/tasks/tests/register_nondeterministic.py:56-101 | a file list written by the upload task is registered entry by entry, in the upload's order, and then unlinked |
| RegisterNondeterministic.OnEntry | src/tasks/tests/register_nondeterministic.py:80-98 | defines the handling of one entry; stated by `RegisterEntry` and `EntryRegisters` |
| RegisterNondeterministic.OnListing | src/tasks/tests/register_nondeterministic.py:59-101 | defines the handling of a directory's entries; stated by `RegisterList` and `ListingStop` |
| RegisterNondeterministic.RegisterListing | src/tasks/tests/register_nondeterministic.py:59-101 | the loop over the directory's entries leaves the catalogue, the log and the ending as the listing handling says |
| StateFlags.Progress | src/common/es/rucio.py:197-199 | the update's three flags `is_done`, `is_replicating`, `is_stuck` are each 1 exactly when the state is the one it marks, else 0 |
| StateFlags.Pushed | src/common/es/rucio.py:74-82 | the five flags of a pushed document are each 1 exactly when the merged state is OK, REPLICATING, STUCK, UPLOAD-FAILED or UPLOAD-SUCCESSFUL respectively, else 0 |
| StateFlags.AtMostOneFlag | src/common/es/rucio.py:74-82 | at most one of the five flags is ever 1 |
| StateFlags.NoStateNoFlag | src/common/es/rucio.py:74-82 | a missing or unrecognised state sets every flag to 0 |
| EsStore.Store.constructor | src/common/es/wrappers.py:9-11 | a store starts with the given documents and backend behaviour |
| EsStore.Store.Get | src/common/es/wrappers.py:13-18 | `_get` returns the stored document, or None when it is missing or the request fails |
| EsStore.Store.Index | src/common/es/wrappers.py:20-26 | `_index` either stores the body under the id, replacing any document there, or fails, returns False and changes nothing |
| EsStore.Store.Update | src/common/es/rucio.py:219-224 | `_update` merges the partial document into an existing one key by key; a missing document or a failing request is logged and changes nothing |
| EsStore.Store.Search | src/common/es/wrappers.py:28-35 | a search returns only matching documents of the index, each once, `min(size, matches)` of them, all of them when fewer than `size` match; a failing search returns nothing |
| EsStore.SearchOrExit | src/es.py:33-40 | `_search` either returns that search result or ends the process |
| EsStore.ApplySnoc | src/common/es/wrappers.py:20-26 | a sequence of index calls applies one more write exactly as a single call does |
| EsStore.ApplyConcat | src/common/es/wrappers.py:20-26 | running two sequences of index calls one after the other is running their concatenation |
| EsStore.ApplyDistinct | src/common/es/wrappers.py:20-26 | after index calls with distinct ids, each accepted id holds its own body, and every other document is unchanged |
| EsStore.EsIndexesSnoc | src/tasks/probes/fts.py:52-54 | only databases of type `es` are written to, in configuration order |
| RuleDocs.PushFields | src/common/es/rucio.py:26-39 | a pushed document takes the rule's fields, with `rule_id` the rule's id and `state` the rule's state |
| RuleDocs.UpdateFields | src/common/es/rucio.py:107-115 | an update takes exactly scope, name, to_rse, updated_at, expires_at, state and error from the rule |
| RuleDocs.ProtocolIsScheme | src/common/es/rucio.py:207 | the protocol is the PFN's scheme: the longest prefix without ':' |
| RuleDocs.EndpointOf | src/common/es/rucio.py:204-213 | the document always gets both `endpoint` and `protocol`, None when the lookup failed |
| RuleDocs.DurationFields | src/common/es/rucio.py:128-135 | `replication_duration` is added exactly when the rule is now OK, the stored document was REPLICATING and both times are datetimes, valued new minus stored `updated_at`; with no stored document an OK rule raises; any other state adds nothing |
| RuleDocs.UpdateFlagsFollowState | src/common/es/rucio.py:197-199 | in every update body sent, each progress flag is 1 exactly when the body's state is the one it marks, whatever the extra entries hold |
| RuleDocs.StoredUnread | src/common/es/rucio.py:128-130 | the stored document is read only for a rule that is now OK |
| RuleDocs.BodyKeys | src/common/es/rucio.py:107-216 | an update body is partial: every key comes from the rule's update fields, the extra entries, the duration, the throughput fields, the three flags or the endpoint |
| RuleDocs.BodyEndpoint | src/common/es/rucio.py:204-213 | the update raises exactly when the duration rule does (or, for the strict variant, the lookup fails); otherwise the endpoint and protocol are the PFN found and its scheme, or None |
| RuleDocs.BodyThroughput | src/common/es/rucio.py:137-192 | a throughput field of the body not set by the extra entries comes from the throughput computation |
| RuleDocs.UpdateTwice | src/common/es/rucio.py:90-216 | repeating an update against the document the first one produced sends a body that changes nothing: no second duration, everything else as before |
| RuleDocs.SecondRunNoDuration | src/common/es/rucio.py:128-135 | a document already holding an OK body gets no further `replication_duration` |
| RuleDocs.MergeAbsorb | src/common/es/rucio.py:219-224 | merging in again fields the last merge already brought leaves the document as it is |
| RuleDocs.IndexAllFrame | src/common/es/rucio.py:64-88 | indexing the entries leaves every key none of them is written under as it was |
| RuleDocs.IndexAllLastWins | src/common/es/rucio.py:64-88 | under an accepted key, the document stored is the last entry written there |
| RuleDocs.UpdatedFrame | src/common/es/rucio.py:219-224 | an update never adds or removes a document and touches no key but its own |
| RuleDocs.UpdateBody | src/common/es/rucio.py:107-216 | defines the body `updateRuleWithDID` sends; stated by `BodyKeys`, `BodyEndpoint`, `BodyThroughput`, `UpdateFlagsFollowState` and `UpdateTwice` |
| RuleDocs.Assemble | src/common/es/rucio.py:194-213 | defines the body from its parts, the later fields winning; stated by `AssembleFacts`, `BodyKeys` and `BodyEndpoint` |
| RuleDocs.PfnLookup | src/common/es/rucio.py:204-210 | an endpoint is found only for a string RSE at which the DID has a replica; a missing RSE key happens only for a well-formed DID and a string or None RSE; every other failure is `Failed` |
| RuleDocs.IndexDoc | src/common/es/rucio.py:83-88 | indexing one entry leaves the store as one step of the indexing run says |
| EsRucio.Entries | src/common/es/rucio.py:22-63 | building the entries raises exactly when a DID is given that has no ':' (listing its rules fails) |
| EsRucio.FullEntryFields | src/common/es/rucio.py:69-82 | in a submitted document the flags say whether its state is the one each marks, the base entry's fields win over the rule's (flags aside), and the rule's other fields are kept |
| EsRucio.FullEntryKey | src/common/es/rucio.py:83-85 | a document is stored under the base entry's `rule_id` if it has one, else under the entry's own |
| EsRucio.RuleEntryId | src/common/es/rucio.py:27-29 | a rule's entry carries that rule's id |
| EsRucio.PushShape | src/common/es/rucio.py:23-63 | a DID with rules gives one document per rule, keyed by its rule id unless the base entry sets one; a DID without rules gives exactly one document under a fresh id |
| EsRucio.CollectEntries | src/common/es/rucio.py:25-57 | the rule loop builds one entry per rule, in order, each with its own endpoint lookup |
| EsRucio.IndexEntries | src/common/es/rucio.py:64-88 | the indexing loop merges the base entry into each entry and indexes them in order, skipping failed writes |
| EsRucio.PushRulesForDID | src/common/es/rucio.py:16-88 | `pushRulesForDID` submits exactly the documents built for the DID, and the index then holds the last accepted document under each key and is otherwise unchanged; when listing the rules raises, nothing is written |
| EsRucio.Unseen | src/common/es/rucio.py:150-153 | the new DIDs of a listing are those not yet found, each once |
| EsRucio.ExpandClosed | src/common/es/rucio.py:146-155 | the corrected expansion, when every listing succeeds, holds each DID once, starts with the collection's own content, and is closed under content |
| EsRucio.ExpandAsWritten | src/common/es/rucio.py:146-155 | the loop as written finishes only when every first-level DID is a file; as soon as one has content, no number of passes ends it |
| EsRucio.FlattenMembers | src/common/es/rucio.py:164-179 | a sample is collected exactly when it is among some DID's transfer throughputs |
| EsRucio.GatherThroughputs | src/common/es/rucio.py:164-181 | the per-DID loop collects each DID's throughputs in order, skipping DIDs whose request or FTS query fails |
| EsRucio.ThroughputFields | src/common/es/rucio.py:141-192 | the only throughput fields are the mean, median and standard deviation, set together when samples were collected |
| EsRucio.ComputeThroughput | src/common/es/rucio.py:141-192 | the throughput block lists the DID, expands a collection with the corrected once-per-DID expansion (or takes the file itself), gathers and summarises; any failure leaves no field |
| EsRucio.UpdateThroughput | src/common/es/rucio.py:139-140 | throughput fields appear only for a rule that is now OK and a truthy FTS endpoint |
| EsRucio.UpdateOutcome | src/common/es/rucio.py:96-103 | an update is skipped exactly when the rule cannot be read; an OK rule without a stored document raises |
| EsRucio.ThroughputOnlyWhenDone | src/common/es/rucio.py:137-192 | a throughput field in a sent body means the rule is OK and an FTS endpoint was given |
| EsRucio.UpdateEndpoint | src/common/es/rucio.py:204-213 | the endpoint and protocol sent are the first PFN at the rule's RSE and its scheme, or None when the lookup fails; a failed lookup never stops the update |
| EsRucio.UpdateIdempotent | src/common/es/rucio.py:90-216 | updating a rule twice in a row leaves its document as the first update left it |
| EsRucio.UpdateRuleWithDID | src/common/es/rucio.py:90-224 | `updateRuleWithDID` sends exactly the outcome's body, computed from the stored document under the rule id, and the index then holds that body merged in; a skipped or raising update writes nothing |
| EsRucio.Expand | src/common/es/rucio.py:146-155 | defines the expansion the update means to make; stated by `ExpandClosed` |
| EsRucio.Bfs | src/common/es/rucio.py:146-155 | defines the breadth-first listing behind `Expand`; stated by `Unseen` and `ExpandClosed` |
| EsRucio.RuleEntry | src/common/es/rucio.py:26-39 | defines the document of one rule; stated by `RuleEntryId` and `RuleDocs.PushFields` |
| EsRucio.IndexEntry | src/common/es/rucio.py:69-88 | one pass of the indexing loop builds the entry the merge gives and leaves the rest of the indexing run to the later entries |
| EsLegacy.Entries | src/es.py:64-101 | building the entries raises exactly when the DID has no ':' |
| EsLegacy.FullEntryFields | src/es.py:108-124 | the base entry's fields win over the rule's (flags aside), and the five flags are present, following the state, exactly when the merged entry has a state |
| EsLegacy.NoRulesEntry | src/es.py:97-130 | without rules the single entry is a timestamp merged with the base entry, written only when the base entry supplies a `rule_id` and the write is accepted |
| EsLegacy.PushShape | src/es.py:67-96 | with rules, one entry per rule, stored under the base entry's id or else the rule's |
| EsLegacy.RuleEntryKey | src/es.py:125-127 | a rule's merged entry is stored under the base entry's `rule_id`, or else the rule's id |
| EsLegacy.CollectEntries | src/es.py:67-96 | the rule loop builds one entry per rule, in order, each with its own endpoint lookup |
| EsLegacy.IndexEntries | src/es.py:103-130 | the indexing loop merges, flags and indexes each entry in order, skipping entries without an id and failed writes |
| EsLegacy.PushRulesForDID | src/es.py:59-130 | `pushRulesForDID` hands exactly the built documents to `_index`, and the index then holds the last accepted document under each key and is otherwise unchanged |
| EsLegacy.UpdateOutcome | src/es.py:138-177 | an update is skipped exactly when the rule cannot be read; an OK rule without a stored document raises |
| EsLegacy.UpdateBodyFields | src/es.py:149-198 | a sent body holds only the rule's update fields, the extra entries, the duration, the three progress flags (following the state) and the endpoint: no throughput and no upload flag |
| EsLegacy.UpdateEndpoint | src/es.py:189-198 | the endpoint and protocol sent are the first PFN at the rule's RSE and its scheme, or None when the lookup fails; a failed lookup never stops the update |
| EsLegacy.UpdateIdempotent | src/es.py:132-201 | updating a rule twice in a row leaves its document as the first update left it |
| EsLegacy.UpdateRuleWithDID | src/es.py:132-201 | `updateRuleWithDID` sends exactly the outcome's body, computed from the stored document, and the index then holds it merged in; a skipped or raising update writes nothing |
| Db.StrictEntries | src/db.py:53-61 | the entries are built exactly when no endpoint lookup fails other than by a missing RSE key |
| Db.Entries | src/db.py:34-68 | building the entries raises exactly when the DID has no ':' or some rule's lookup fails other than by `KeyError` |
| Db.FullEntryFields | src/db.py:70-80 | a pushed document is marked submitted whatever the base entry says, its five flags follow its state, and otherwise the base entry's fields win over the rule's |
| Db.IndexRunCompletes | src/db.py:70-85 | the indexing loop runs to the end exactly when every entry has a state and every write is accepted |
| Db.IndexRunStops | src/db.py:70-85 | a loop that stops early raised at an entry without a state, or ended the process at a refused write |
| Db.IndexRunSubmitted | src/db.py:70-85 | every document the loop writes is marked submitted, and other keys keep their documents |
| Db.NoRulesNeedState | src/db.py:64-80 | without rules, a base entry without a state makes the push raise before anything is written |
| Db.IndexRunSkips | src/db.py:81-85 | an entry without a `rule_id` is skipped |
| Db.IndexRunExits | src/db.py:20-25 | a refused write ends the process with nothing written |
| Db.FlagSteps | src/db.py:71-80 | the loop's step-by-step assignments compute the merged, flagged entry |
| Db.CollectEntries | src/db.py:36-63 | the rule loop builds one entry per rule, in order, raising when a lookup fails other than by `KeyError` |
| Db.IndexStep | src/db.py:70-85 | one pass of the loop body either ends the call as the indexing run says or leaves the rest of the run to the remaining entries |
| Db.IndexEntries | src/db.py:70-85 | the indexing loop leaves the store and ends as the indexing run says |
| Db.PushRulesForDID | src/db.py:33-85 | `pushRulesForDID` leaves the store and ends exactly as the push run says |
| Db.UpdateOutcome | src/db.py:95-142 | an update is skipped exactly when the rule cannot be read; an OK rule without a stored document raises |
| Db.UpdateEndpoint | src/db.py:132-142 | only a missing RSE key gives a None endpoint, which includes a `to_rse` of None once the DID has a replica; any other failed lookup raises; a found PFN gives the endpoint and its scheme |
| Db.UpdateBodyFields | src/db.py:106-142 | a sent body is partial, and its three progress flags follow its state |
| Db.UpdateIdempotent | src/db.py:95-145 | updating a rule twice in a row leaves its document as the first update left it |
| Db.UpdateRuleWithDID | src/db.py:95-145 | `updateRuleWithDID` sends exactly the outcome's body, computed from the stored document, and the index then holds it merged in; a skipped or raising update writes nothing |
| Db.IndexRun | src/db.py:70-85 | defines the indexing loop and how it ends; stated by `IndexRunCompletes`, `IndexRunStops`, `IndexRunSubmitted`, `IndexRunSkips` and `IndexRunExits` |
| Db.PushRun | src/db.py:33-85 | defines what `pushRulesForDID` does and how it ends; stated by `PushRulesForDID` and `NoRulesNeedState` |
| Db.RuleEntryAt | src/db.py:38-63 | one pass of the rule loop gives that rule's endpoint lookup and, when it does not fail, that rule's entry |
| SyncDatabase.SelectionMeans | src/tasks/sync/database.py:42-63 | a document is selected exactly when its task name is `task_name_to_update`, `is_done` is 0 and `created_at` lies in the inclusive window |
| SyncDatabase.DispatchedFrame | src/tasks/sync/database.py:14-18 | one worker's update creates and deletes no document and changes only its own rule's |
| SyncDatabase.DispatchFrame | src/tasks/sync/database.py:69-75 | the synchronisation creates and deletes no document and changes only those of the rules its hits name |
| SyncDatabase.DispatchStep | src/tasks/sync/database.py:70-73 | dispatching the hits is one update for the first hit, with its rule id, and then the rest |
| SyncDatabase.Run | src/tasks/sync/database.py:20-78 | a missing kwarg returns False and changes nothing; a failing search exits; otherwise the hits are the selected documents (distinct, at most `max_rows`, all of them when fewer match); a `n_workers` below one then raises before any update, and otherwise each hit gets exactly one update with its rule id, the index and the FTS endpoint, a failed update stopping nothing |
| SyncDatabase.Dispatched | src/tasks/sync/database.py:14-18 | defines one worker's update; stated by `DispatchedFrame` |
| SyncDatabase.DispatchAll | src/tasks/sync/database.py:69-75 | defines the dispatch loop; stated by `DispatchFrame` and `DispatchStep` |
| Comms.SelectionMeans | src/tasks/comms.py:32-53 | a document is selected exactly when `is_submitted` is 1, `is_done` is 0 and `created_at` lies in the inclusive window, whatever its task |
| Comms.UpdateOneFrame | src/tasks/comms.py:62-63 | one update creates and deletes no document and changes only its own rule's |
| Comms.UpdateInOrderFrame | src/tasks/comms.py:60-63 | the loop creates and deletes no document and changes only those of rules its hits name; it ends normally only when every hit has a rule id |
| Comms.UpdateStep | src/tasks/comms.py:60-63 | the loop is one update for the first hit and then the rest, unless that update raised |
| Comms.Run | src/tasks/comms.py:11-66 | a missing kwarg exits; a database type other than `es` does nothing; a failing search exits; otherwise the selected hits are updated one at a time in result order, and an exception ends the loop |
| Comms.UpdateOne | src/tasks/comms.py:62-63 | defines one update of a hit; stated by `UpdateOneFrame` |
| Comms.UpdateInOrder | src/tasks/comms.py:60-63 | defines the update loop; stated by `UpdateInOrderFrame` and `UpdateStep` |
| Reports.FieldOf | src/tasks/reports/daily.py:56-118 | the RSE of a count query is matched on `from_rse` or on `to_rse` |
| Reports.RoleFiltersMean | src/tasks/reports/daily.py:56-118 | a document is counted for a term, role and RSE exactly when the term's flag is 1, the task name is the configured one, the RSE is in that role and `created_at` lies in the inclusive window |
| Reports.CountBounds | src/tasks/reports/daily.py:86-118 | a count is the number of hits: never above `max_rows`, never above the matching documents, and equal to them when below `max_rows` |
| Reports.Set | src/tasks/reports/daily.py:86 | storing a term's count changes that term's entry and no other |
| Reports.TallyStep | src/tasks/reports/daily.py:50-118 | one more pass of the term loop records the next term's count and keeps the earlier ones |
| Reports.TalliedAll | src/tasks/reports/daily.py:50-54 | once all four terms are counted, the table holds the expected submitted, stuck, replicating and done counts |
| Reports.CountRoles | src/tasks/reports/daily.py:50-118 | a failing search ends the run; otherwise the source and destination tables are the counts of the four terms for the RSE in each role |
| Reports.SymbolMeans | src/tasks/reports/daily.py:158-162 | the symbol is `:warning:` exactly when more documents are stuck than the threshold or none was submitted, `:ok:` exactly otherwise, and it holds no tab |
| Reports.Pad4Shape | src/tasks/reports/daily.py:168-177 | `{:4d}` gives the decimal digits, right-aligned with spaces in a field of at least four characters |
| Reports.Pad4NoTab | src/tasks/reports/daily.py:168-177 | a padded count holds no tab |
| Reports.CellNoTab | src/tasks/reports/daily.py:168-177 | an emoji followed by a padded count holds no tab when the emoji holds none |
| Reports.LineCells | src/tasks/reports/daily.py:163-179 | split on tabs, a count line is the symbol, the role label, then the submitted, done, stuck and replicating cells, in that order |
| Reports.ConcatAppend | src/tasks/reports/daily.py:150-199 | appending one more group of blocks appends its blocks at the end |
| Reports.ConcatJoin | src/tasks/reports.py:59-178 | the blocks of two runs of groups are those of the first run followed by those of the second |
| Reports.ConcatSnoc | src/tasks/reports/daily.py:150-199 | the blocks of the first `i + 1` groups are those of the first `i` followed by group `i` |
| Reports.ConcatLayout | src/tasks/reports/daily.py:150-199 | groups of four blocks lie end to end: group `i` occupies positions `4i` to `4i + 4` |
| Reports.HeadThenGroups | src/tasks/reports/daily.py:124-199 | three opening blocks followed by groups of four: the opening blocks come first and group `i` starts at `3 + 4i` |
| Reports.SlackMeans | src/tasks/reports/daily.py:122-123 | the Slack webhooks are exactly the configured webhooks of type `slack`, no more of them than webhooks |
| Reports.SlackPostsMeans | src/tasks/reports/daily.py:122-211 | exactly one post per Slack webhook, in configuration order, each to that webhook's URL with the same payload |
| Reports.SlackPostsStep | src/tasks/reports/daily.py:122-211 | one more webhook adds a post exactly when it is a Slack webhook |
| Reports.SlackStep | src/tasks/reports.py:121-122 | one more webhook adds a Slack webhook exactly when it is of type `slack` |
| ReportDaily.GroupsAt | src/tasks/reports/daily.py:150-199 | there is one group of four blocks per RSE, in configuration order, each built from that RSE's source and destination counts |
| ReportDaily.ReportLayout | src/tasks/reports/daily.py:124-199 | the payload is the header `title (date)`, the threshold section and a divider, then four blocks per RSE in order: its name, its source line, its destination line and a divider |
| ReportDaily.GroupsFromCounts | src/tasks/reports/daily.py:39-199 | blocks built from the count tables gathered beforehand are those of the report when the tables hold the store's counts |
| ReportDaily.BuildBlocks | src/tasks/reports/daily.py:124-199 | the blocks are the opening blocks followed by every RSE's four blocks, in order |
| ReportDaily.CountAll | src/tasks/reports/daily.py:39-118 | with RSEs to count a failing search ends the run; otherwise every RSE's source and destination tables hold the store's counts |
| ReportDaily.Run | src/tasks/reports/daily.py:14-213 | a missing kwarg returns False; for an `es` database a failing search ends the run, otherwise every Slack webhook gets the report; for any other database the first RSE line raises when a Slack webhook and an RSE are configured, and otherwise each Slack webhook gets the opening blocks alone |
| ReportDaily.Report | src/tasks/reports/daily.py:124-199 | defines the payload every Slack webhook receives; stated by `ReportLayout`, `GroupsAt` and `BuildBlocks` |
| ReportLegacy.QueryOf | src/tasks/reports.py:63-118 | every count query of this version is for the task `test-replication` |
| ReportLegacy.Tallies | src/tasks/reports.py:59-119 | one table per RSE, in configuration order |
| ReportLegacy.TalliesAt | src/tasks/reports.py:59-119 | the table of RSE `j` is the store's counts for that RSE in that role |
| ReportLegacy.GroupsAt | src/tasks/reports.py:59-178 | with `k` Slack webhooks there are `k` groups of four blocks per RSE, and copy `c` of RSE `i` is that RSE's blocks |
| ReportLegacy.ReportLayout | src/tasks/reports.py:39-178 | the list is the header `Daily Report (date)`, the threshold section and a divider, then for each RSE in order `k` copies of its linked name, source line, destination line and divider: `3 + 4·k·|rses|` blocks |
| ReportLegacy.CopiesStep | src/tasks/reports.py:121-178 | one more copy of a group appends its blocks once more |
| ReportLegacy.AppendPerSlack | src/tasks/reports.py:121-178 | the webhook loop appends an RSE's blocks once per Slack webhook |
| ReportLegacy.AppendRse | src/tasks/reports.py:60-178 | a failing search ends the run; otherwise the RSE's counts are those of the store and its blocks are appended once per Slack webhook |
| ReportLegacy.BuildBlocks | src/tasks/reports.py:59-178 | with RSEs to count a failing search ends the run; otherwise the list is the opening blocks followed by each RSE's copies, in order |
| ReportLegacy.TalliesSnoc | src/tasks/reports.py:59-119 | counting one more RSE appends its table |
| ReportLegacy.BlocksStep | src/tasks/reports.py:59-178 | one more RSE appends its tables and, after the blocks of the earlier RSEs, its `k` copies |
| ReportLegacy.GroupsSnoc | src/tasks/reports.py:59-178 | the groups of one more RSE are the earlier groups followed by its `k` copies |
| ReportLegacy.Run | src/tasks/reports.py:16-193 | a missing kwarg returns False; a database other than `es` sends nothing; a failing search ends the run; otherwise every Slack webhook gets the whole list |
| ReportLegacy.Report | src/tasks/reports.py:39-178 | defines the list every Slack webhook receives; stated by `ReportLayout` and `GroupsAt` |
| Alarms.SelectionMeans | src/tasks/alarms.py:34-51 | a document is selected exactly when `is_stuck` is 1 and `created_at` lies in the inclusive window |
| Alarms.AttachmentMeans | src/tasks/alarms.py:61-90 | an attachment exists exactly when the document has `rule_id`, `scope`, `name`, `from_rse`, `to_rse` and `created_at`; its fallback and pretext are the same `STUCK: from to @ created` headline, its colour `#D00000`, its field titled `Description` and not short, and a missing `error` is shown as `None` |
| Alarms.DescriptionLines | src/tasks/alarms.py:84-86 | split on newlines, the description is the rule id, DID and error lines followed by an empty tail |
| Alarms.AttachmentsExist | src/tasks/alarms.py:57-90 | the attachment list is built exactly when every stuck document has the required fields |
| Alarms.AttachmentsLayout | src/tasks/alarms.py:57-90 | with `k` Slack webhooks there are `k` attachments per stuck document, in hit order, copy `c` of document `i` being that document's attachment |
| Alarms.AttachmentsPrefix | src/tasks/alarms.py:57-71 | once the attachment of an earlier document raises, no attachment list is built |
| Alarms.AppendPerSlack | src/tasks/alarms.py:73-90 | the webhook loop appends a document's attachment once per Slack webhook |
| Alarms.BuildAttachments | src/tasks/alarms.py:56-90 | the loop over the hits builds the attachment list, or raises at the first document missing a required field |
| Alarms.Run | src/tasks/alarms.py:13-105 | a missing kwarg exits; a database other than `es` sends nothing; a failing search exits; otherwise the hits are distinct selected documents, at most `max_rows` and all of them when fewer match, and either a document missing a field raises before anything is sent or every Slack webhook is sent the whole attachment list |
| Alarms.Attachments | src/tasks/alarms.py:57-90 | defines the attachment list; stated by `AttachmentsExist`, `AttachmentsLayout` and `AttachmentsPrefix` |
| Alarms.AttachmentOf | src/tasks/alarms.py:61-90 | defines the attachment of one stuck document; stated by `AttachmentMeans` and `DescriptionLines` |
| Alarms.AttachmentsLength | src/tasks/alarms.py:57-90 | with `k` Slack webhooks the list holds `k` attachments per stuck document |
| Alarms.AttachmentAt | src/tasks/alarms.py:57-90 | copy `c` of document `i`'s attachment sits in slot `k · i + c` of the list |
| SlackBot.FirstMatch | src/slackbot.py:45-293 | the phrase chosen, when any, is one of those checked from the given position on |
| SlackBot.FirstMatchMeans | src/slackbot.py:45-293 | the phrase chosen is contained in the message and no phrase checked before it is; no phrase is chosen exactly when the message contains none |
| SlackBot.FirstMatchAt | src/slackbot.py:45-293 | the phrase at position `i` is chosen exactly when the message contains it and none of the phrases checked before it |
| SlackBot.Rank | src/slackbot.py:45-293 | every command has its own position in the order the branches are checked |
| SlackBot.DispatchMeans | src/slackbot.py:45-293 | command `i` handles a message exactly when the message contains its phrase and none of the phrases checked before it, so `list jobs` wins over `list rses` and `disable job` over `enable job` |
| SlackBot.DispatchNone | src/slackbot.py:45-293 | no command handles a message exactly when it contains no command phrase |
| SlackBot.DefaultRseList | src/slackbot.py:22-35 | the default `-rses` value splits into ten entries, `LAPP-DCACHE` and `PIC-DCACHE` run together into one because the two literals are joined without a separator |
| SlackBot.DefaultJoined | src/slackbot.py:22-24 | the default option is those ten entries joined by `, ` |
| SlackBot.ListRsesEcho | src/slackbot.py:93-98 | joining the split RSE list with `, ` gives back the option unchanged |
| SlackBot.RenderMarks | src/slackbot.py:82 | when schedule and command hold no `#`, a job's rendering holds a `#` exactly when the job is disabled or carries a comment, so an enabled job with a comment is listed as disabled |
| SlackBot.RenderJob | src/slackbot.py:82-85 | defines `job.render()`: the schedule, the command and any comment, commented out when the job is disabled; stated by `RenderMarks` and `JobLines` |
| SlackBot.DisabledMark | src/slackbot.py:81-85 | a `list jobs` line carries the `(DISABLED)` suffix exactly when the rendered job contains `#` |
| SlackBot.JobLines | src/slackbot.py:80-86 | one line per job of the crontab, each holding the job's full rendering: schedule, command and comment |
| SlackBot.PadNoNewline | src/slackbot.py:83-85 | `{:2}` of a job index holds no newline |
| SlackBot.ListJobsLines | src/slackbot.py:80-86 | with single-line schedules, commands and comments the `list jobs` reply splits back into exactly the job lines, line `i` being job `i`'s |
| SlackBot.DigitsOfNat | src/slackbot.py:109 | the decimal digits of a number read back as that number |
| SlackBot.StripNumeral | src/slackbot.py:109 | a numeral has no surrounding whitespace for `strip` to remove |
| SlackBot.ParseRendered | src/slackbot.py:109-115 | `int` of the decimal text of an integer is that integer |
| SlackBot.NumeralSigned | src/slackbot.py:109 | a minus sign before decimal digits reads as the negated value |
| SlackBot.NumeralUnsigned | src/slackbot.py:109 | decimal digits alone read as their value |
| SlackBot.PyIndex | src/slackbot.py:111 | a list index that does not raise designates an entry of the list |
| SlackBot.NoCommandNoReply | src/slackbot.py:45-293 | a message containing no command phrase gets no reply and changes no crontab |
| SlackBot.ArityHint | src/slackbot.py:69-144 | `disable job` and `enable job` with other than five tokens and `list jobs` with other than four get only the syntax hint and change nothing |
| SlackBot.ListRsesReply | src/slackbot.py:93-98 | `list rses` posts the configured RSE option exactly, and changes nothing |
| SlackBot.SetEnabledEffect | src/slackbot.py:99-144 | for a known user and an index that exists, the reply is one post; only that user's crontab can change, and there only the job's enabled state, and only when its schedule is valid; the reply shows the job's new full rendering; its next `list jobs` line is marked `(DISABLED)` exactly when it was disabled or carries a comment |
| SlackBot.PostsAtMostTwo | src/slackbot.py:45-327 | a message gets at most two posts, two only for `start job`, and only `disable job` and `enable job` change a crontab |
| SlackBot.SetEnabledPosts | src/slackbot.py:99-144 | disabling or enabling posts at most once |
| SlackBot.StartJobPosts | src/slackbot.py:293-327 | `start job` changes no crontab; with other than five tokens or an unknown user it posts nothing, because both texts are assigned but never posted; an index that is not an integer or not in the crontab raises before any post; otherwise it posts `running job <idx> (<command>)` and then the command's output, or `Failed to run job` on a non-zero exit, raising after the announcement instead when the command splits into no words or its program cannot be started |
| SlackBot.CountSubmitted | src/slackbot.py:219-221 | no more submitted hits than hits |
| SlackBot.CountClass | src/slackbot.py:222-227 | no more hits of a state than hits |
| SlackBot.ClassesExclusive | src/slackbot.py:222-227 | each hit counts as at most one of done, stuck and replicating, so together they never exceed the hits |
| SlackBot.CountHits | src/slackbot.py:215-227 | the counter loop gives the submitted count and the done, stuck and replicating counts, done taking precedence over stuck and stuck over replicating, or raises when a hit lacks a key it reads |
| SlackBot.PercentZero | src/slackbot.py:229-232 | the success percentage is 0 exactly when nothing was submitted or at most half a percent of the submitted hits are done |
| SlackBot.RoundZero | src/slackbot.py:229-230 | `round(a / b)` is 0 exactly when `a / b` is at most one half, ties going to the even 0 |
| SlackBot.SkullIff | src/slackbot.py:229-287 | a partner line starts with `:skull: ` exactly when its percentage is 0 |
| SlackBot.Partners | src/slackbot.py:184-239 | no more partners than configured RSEs |
| SlackBot.PartnersMeans | src/slackbot.py:184-239 | the partners are exactly the configured RSEs other than the requested one, and all of them, in order, when the requested RSE is not configured |
| SlackBot.Reply | src/slackbot.py:37-327 | defines the bot's answer to one message: the command its text selects, then that command's posts, crontabs and raise; its properties are `NoCommandNoReply`, `PostsAtMostTwo` and `DispatchMeans` |
| SlackBot.ReplyTo | src/slackbot.py:45-327 | defines one branch per command: `hello` greets the sender, `list commands` posts the nine help lines, `list rses` the option, `show information for` always raises and `show replications for` raises as the imports leave it; stated by `ListRsesReply`, `ArityHint` and `PostsAtMostTwo` |
| SlackBot.ListJobsReply | src/slackbot.py:69-92 | defines `list jobs`: the syntax hint for other than four tokens, the unknown-user text, else one line per job with the index and the job's full rendering (schedule, command, comment); stated by `ArityHint`, `JobLines` and `ListJobsLines` |
| SlackBot.SetEnabledReply | src/slackbot.py:99-144 | defines `disable job` and `enable job`, written back only for a valid schedule, the reply holding the job's new full rendering; stated by `SetEnabledEffect`, `SetEnabledPosts` and `ArityHint` |
| SlackBot.StartJobReply | src/slackbot.py:293-327 | defines `start job`, silent on a bad token count or an unknown user; stated by `StartJobPosts` |
| SlackBot.RunJob | src/slackbot.py:303-327 | defines the announcement and the output of running a job, raising on a bad index and on a command that cannot be started; stated by `StartJobPosts` |
| SlackBot.RunJobPosts | src/slackbot.py:303-327 | a bad index raises before any post; a valid one posts `running job <idx> (<command>)` first, raises exactly when the command is blank or cannot be started, and otherwise posts the command's output or `Failed to run job` second |
| SlackBot.ParseInt | src/slackbot.py:109 | defines `int()` of a token as an optionally signed decimal numeral; stated by `ParseRendered`, `NumeralSigned`, `NumeralUnsigned` and `StripNumeral` |
| SlackBot.Tallied | src/slackbot.py:215-227 | defines the four counts of a search's hits, or None when a hit lacks a key read; stated by `CountHits` and `ClassesExclusive` |
| SlackBot.Percent | src/slackbot.py:229-230 | defines the rounded success percentage; stated by `PercentZero` |
| SlackBot.PartnerLine | src/slackbot.py:231-287 | defines one partner line with its skull or its stray `(`; stated by `SkullIff` |
| ProbeFts.TransfersUrlSlash | src/tasks/probes/fts.py:35-37 | a trailing slash on the endpoint does not change the monitoring URL |
| ProbeFts.StatusKey | src/tasks/probes/fts.py:39-49 | the flag a file state sets is one of the five status keys |
| ProbeFts.StatusKeyMeans | src/tasks/probes/fts.py:39-49 | `SUBMITTED`, `ACTIVE`, `FINISHED` and `FAILED` each set their own flag, and exactly the other states set `is_status_other` |
| ProbeFts.ClassifiedMeans | src/tasks/probes/fts.py:39-49 | classifying adds that status key with value 1 and keeps every other field; a transfer with no status key before has exactly one after |
| ProbeFts.FirstWithout | src/tasks/probes/fts.py:39-40 | the records before the position found have the key and the one at it lacks it |
| ProbeFts.ClassifyAll | src/tasks/probes/fts.py:39-49 | the transfers are classified in place, in order, up to the first one without a file state, which raises and leaves it and the rest unchanged |
| ProbeFts.BodyMeans | src/tasks/probes/fts.py:61-64 | the indexed body holds the transfer's fields unchanged plus `@timestamp`, the time in milliseconds unless the transfer has its own |
| ProbeFts.TransferWritesAt | src/tasks/probes/fts.py:57-65 | one index request per transfer, in order, each under the transfer's file id |
| ProbeFts.OneDocumentPerTransfer | src/tasks/probes/fts.py:57-65 | with distinct file ids every transfer the store accepts ends up as one document under its file id holding its body |
| ProbeFts.IndexTransfers | src/tasks/probes/fts.py:57-65 | the database's index holds the requests of the transfers up to the first without a file id, where the loop raises |
| ProbeFts.TransferWritesSnoc | src/tasks/probes/fts.py:57-65 | one more transfer adds its request last |
| ProbeFts.IndexAll | src/tasks/probes/fts.py:52-65 | every `es` database gets the requests of all the transfers in database order, unless a transfer lacks a file id, which stops the run at the first `es` database, there |
| ProbeFts.AllWritesSnoc | src/tasks/probes/fts.py:53-65 | one more `es` database adds its transfers' requests last |
| ProbeFts.EsIndexesAppend | src/tasks/probes/fts.py:53-54 | the `es` indexes of two runs of databases are those of the first then those of the second |
| ProbeFts.FirstEsIndex | src/tasks/probes/fts.py:53-54 | the first database of type `es` supplies the first `es` index |
| ProbeFts.Run | src/tasks/probes/fts.py:22-68 | a missing kwarg returns False and changes nothing; a transfer without a file state raises before anything is written; otherwise every transfer is classified and, unless `databases` is None, indexed into each `es` database, a transfer without a file id raising at the first |
| ProbeFts.Writes | src/tasks/probes/fts.py:52-65 | defines the index requests of the run; stated by `IndexAll`, `AllWritesSnoc` and `TransferWritesAt` |
| ProbeFts.Classified | src/tasks/probes/fts.py:39-49 | defines a transfer after classification; stated by `ClassifiedMeans` and `StatusKeyMeans` |
| ProbeFts.Body | src/tasks/probes/fts.py:61-64 | defines the indexed document of a transfer; stated by `BodyMeans` |
| ProbeHeartbeats.CheckMeans | src/tasks/probes/service_heartbeats.py:29-48 | a service is alive exactly when the status is the expected one and either no content is expected or the decoded body equals it; `is_alive` is 0 or 1 and the error is empty exactly when it is 1 |
| ProbeHeartbeats.CheckRaises | src/tasks/probes/service_heartbeats.py:30-33 | a check raises exactly when the request does, or when the status matches, content is expected and the body does not decode |
| ProbeHeartbeats.StatusFirst | src/tasks/probes/service_heartbeats.py:31-48 | a wrong status is reported as a status mismatch naming the expected and the received status, whatever the body; any other error is a content mismatch naming the expected and the received content |
| ProbeHeartbeats.MessageKinds | src/tasks/probes/service_heartbeats.py:38-47 | a status error's text starts with `status` and a content error's with `content` |
| ProbeHeartbeats.FirstRaise | src/tasks/probes/service_heartbeats.py:29-48 | the services before the position found are checked without raising and the one at it raises |
| ProbeHeartbeats.CheckAll | src/tasks/probes/service_heartbeats.py:29-48 | the services are updated in place, in order, each with its verdict, up to the first check that raises, which leaves it and the rest unchanged |
| ProbeHeartbeats.BodyMeans | src/tasks/probes/service_heartbeats.py:60-66 | the indexed document has exactly `@timestamp`, `service_name`, `service_endpoint`, `is_alive` and `error`, the name and endpoint those of the service, and `error` is null exactly when the service is alive |
| ProbeHeartbeats.ServiceWritesAt | src/tasks/probes/service_heartbeats.py:56-67 | one index request per service, in order, each under the service's name |
| ProbeHeartbeats.OneDocumentPerService | src/tasks/probes/service_heartbeats.py:56-67 | with distinct names every service the store accepts ends up as one document under its name holding its body |
| ProbeHeartbeats.IndexServices | src/tasks/probes/service_heartbeats.py:56-67 | the database's index holds the requests of every service, in order |
| ProbeHeartbeats.ServiceWritesSnoc | src/tasks/probes/service_heartbeats.py:56-67 | one more service adds its request last |
| ProbeHeartbeats.IndexAll | src/tasks/probes/service_heartbeats.py:51-67 | every `es` database gets the requests of every service, in database order, and nothing else is written |
| ProbeHeartbeats.Run | src/tasks/probes/service_heartbeats.py:17-70 | a missing kwarg returns False and changes nothing; the services are checked in order, a raising check ending the task before anything is written and leaving the services from it on unchanged; otherwise, unless `databases` is None, every service is indexed into each `es` database |
| ProbeHeartbeats.Check | src/tasks/probes/service_heartbeats.py:29-48 | defines the check of one service; stated by `CheckMeans`, `CheckRaises`, `StatusFirst` and `MessageKinds` |
| ProbeHeartbeats.Body | src/tasks/probes/service_heartbeats.py:60-66 | defines the indexed document of a checked service; stated by `BodyMeans` |
| SyncIam.ListUsers | src/tasks/sync/iam.py:25-47 | the requests start at index 1 and advance by 100; every page before the last leaves `itemsPerPage` summed below its `totalResults`; the users are the `Resources` of all pages fetched, in page order |
| SyncIam.ServedInFull | src/tasks/sync/iam.py:25-47 | paging a SCIM server that serves 100 users per page from index 1 reads all of its users, in order |
| SyncIam.GroupNames | src/tasks/sync/iam.py:73-76 | the group names are the `display` of each group, in order, and none when the user has no `groups` key |
| SyncIam.ParseUsers | src/tasks/sync/iam.py:65-84 | one record per user, in order, with its username, first email, id and group names; a user without an email raises |
| SyncIam.Rucio.constructor | src/tasks/sync/iam.py:124-125 | the client sees the given accounts and RSEs |
| SyncIam.Rucio.DeleteAccount | src/tasks/sync/iam.py:152-155 | the account is marked DELETED and nothing else changes; a missing account raises AccountNotFound and changes nothing |
| SyncIam.Rucio.SetStatus | src/tasks/sync/iam.py:188 | only that account's status changes |
| SyncIam.Rucio.SetType | src/tasks/sync/iam.py:242-246 | only that account's type changes |
| SyncIam.Rucio.AddAccount | src/tasks/sync/iam.py:198-203 | a new active account with the given type and email and no attributes, limits or identities |
| SyncIam.Rucio.AddAttribute | src/tasks/sync/iam.py:261 | only that account's attribute is set, to a truthy value |
| SyncIam.Rucio.DeleteAttribute | src/tasks/sync/iam.py:257 | only that account's attribute is removed |
| SyncIam.Rucio.SetLimit | src/tasks/sync/iam.py:273 | only that account's limit at that RSE changes |
| SyncIam.Rucio.AddIdentity | src/tasks/sync/iam.py:110-111 | only that account gains the identity |
| SyncIam.DropSkipped | src/tasks/sync/iam.py:143-144 | removing the skip accounts raises exactly when one is not a candidate or is named twice, and otherwise leaves the candidates without them |
| SyncIam.FirstIndex | src/tasks/sync/iam.py:157 | the first user with the name, when there is one |
| SyncIam.Matching | src/tasks/sync/iam.py:157 | a user is found exactly when one has the name, and it has that name |
| SyncIam.Decide | src/tasks/sync/iam.py:159-207 | only an existing account is kept, reactivated or skipped as existing, and only a DELETED one is reactivated |
| SyncIam.DecideOrder | src/tasks/sync/iam.py:159-175 | an inactive user is skipped first, then one named with more than 25 characters, then one whose name contains `@` |
| SyncIam.ReconcileOne | src/tasks/sync/iam.py:146-207 | handling one candidate changes at most that account, as the first-pass step prescribes |
| SyncIam.ReconcilePass | src/tasks/sync/iam.py:138-207 | a failing skip-account removal raises and changes nothing; otherwise the accounts are those of the first pass, whatever the order of the candidates |
| SyncIam.ListedAccount | src/tasks/sync/iam.py:146-155 | a listed account is marked DELETED exactly when it has no IAM user, is not skipped and the run is not dry; otherwise it is unchanged |
| SyncIam.MissingAccount | src/tasks/sync/iam.py:156-207 | an account is created exactly for an IAM-only user who is not skipped, is active, has a name of at most 25 characters without `@`, is in an admin or user group, and the run is not dry; it is active, with the user's email, and SERVICE for an admin-group member, USER otherwise |
| SyncIam.UnlistedAccount | src/tasks/sync/iam.py:177-192 | an unlisted existing account of a non-skipped IAM user is reactivated exactly when the user is admissible, in an admin or user group, and the account is DELETED, in a dry run too; otherwise it stays as it is |
| SyncIam.FirstPassSettles | src/tasks/sync/iam.py:138-207 | running the first pass again over the accounts it leaves raises nothing and changes nothing |
| SyncIam.SyncAttribute | src/tasks/sync/iam.py:252-261 | a wanted attribute ends present and truthy, a falsy one being removed and added again; an unwanted one ends removed; nothing else changes |
| SyncIam.SetQuotas | src/tasks/sync/iam.py:263-273 | the account's limit at every RSE becomes the quota, and nothing else changes |
| SyncIam.QuotaAt | src/tasks/sync/iam.py:264-273 | the listed RSEs get the quota and the other limits are unchanged |
| SyncIam.QuotaIdempotent | src/tasks/sync/iam.py:264-273 | setting the quotas twice is setting them once |
| SyncIam.UpdateOne | src/tasks/sync/iam.py:224-302 | updating one account changes only that account, as the update step prescribes |
| SyncIam.UpdatePass | src/tasks/sync/iam.py:209-302 | every listed account that is not skipped is updated once, and no other account changes |
| SyncIam.SyncedMeans | src/tasks/sync/iam.py:237-302 | an admin-group member's account becomes SERVICE, a user-group member's USER, and one in neither is DELETED; `sign-gcs` is present and truthy exactly for user-group members, `admin` exactly for admin-group members, other attributes unchanged; a user-group member's limit is the quota at every RSE; email and identities are kept |
| SyncIam.SyncedIdempotent | src/tasks/sync/iam.py:237-302 | updating an account twice for the same user is updating it once |
| SyncIam.UpdatedIdempotent | src/tasks/sync/iam.py:209-302 | a second update pass over the accounts the first leaves changes nothing |
| SyncIam.SyncAccounts | src/tasks/sync/iam.py:119-302 | a user without an email or a failing skip-account removal raises and changes nothing; otherwise the accounts are those of the first pass followed by the update pass |
| SyncIam.OidcOne | src/tasks/sync/iam.py:97-117 | handling one account changes at most that account's identities |
| SyncIam.AddOidc | src/tasks/sync/iam.py:86-117 | a user without an email raises and changes nothing; otherwise every non-skipped listed account gets its IAM user's identity as the OIDC step prescribes |
| SyncIam.OidcAdded | src/tasks/sync/iam.py:97-111 | only identities are added; outside a dry run every non-skipped listed account with an IAM user holds `SUB=<id>, ISS=<base url>` as an OIDC identity afterwards, added with the user's email when it was missing |
| SyncIam.WithOidcIdempotent | src/tasks/sync/iam.py:86-117 | adding the identities twice is adding them once |
| SyncIam.Run | src/tasks/sync/iam.py:304-339 | a missing kwarg returns False; a token response without `access_token` raises; a user without an email or a failing skip-account removal raises before any change; otherwise the accounts are synchronised and then given their OIDC identities |
| SyncIam.SkippedUntouched | src/tasks/sync/iam.py:97-226 | a skip account comes through the whole synchronisation unchanged |
| SyncIam.DryRunReactivatesOnly | src/tasks/sync/iam.py:151-203 | a dry run adds no account, and changes an account only by reactivating a DELETED account of an IAM user |
| SyncIam.Sync | src/tasks/sync/iam.py:86-302 | defines the whole synchronisation, `sync_accounts` then `add_oidc`; stated by `SkippedUntouched`, `DryRunReactivatesOnly` and `Run` |
| SyncIam.Step1 | src/tasks/sync/iam.py:146-207 | defines what the first pass does to one account; stated by `ReconcileOne`, `ListedAccount`, `MissingAccount` and `UnlistedAccount` |
| SyncIam.Step2 | src/tasks/sync/iam.py:224-302 | defines what the update pass does to one listed account; stated by `UpdateOne` |
| SyncIam.Step3 | src/tasks/sync/iam.py:97-111 | defines what `add_oidc` does to one listed account; stated by `OidcOne` and `OidcAdded` |
| SyncIam.Synced | src/tasks/sync/iam.py:237-302 | defines an account updated for its IAM user; stated by `SyncedMeans` and `SyncedIdempotent` |
| SyncIam.Paged | src/tasks/sync/iam.py:25-47 | defines the users read by the paging loop; stated by `ListUsers` and `ServedInFull` |
| SyncIam.Records | src/tasks/sync/iam.py:65-84 | defines the record of each user; stated by `ParseUsers` and `GroupNames` |
| SyncIam.FirstPass | src/tasks/sync/iam.py:138-207 | defines the accounts after the first pass; stated by `ReconcilePass` and `FirstPassSettles` |
| SyncIam.Updated | src/tasks/sync/iam.py:209-302 | defines the accounts after the update pass; stated by `UpdatePass` and `UpdatedIdempotent` |
| SyncIam.WithOidc | src/tasks/sync/iam.py:86-117 | defines the accounts after `add_oidc`; stated by `AddOidc` and `WithOidcIdempotent` |

## Left out

- HTTP requests (Slack posts, IAM and FTS REST), gfal2 storage calls, the Rucio and Elasticsearch clients, the Slack RTM client and Kubernetes are not modelled. They become in-memory inputs, objects or action logs.
- Logging is left out. It has no effect on state; the one exception is `LFN2PFN_SKAO_SpoofGeneric`, where the missing `self.logger` raises and the model shows the raise.
- `datetime.now()`, `time.time()`, `uuid.uuid4()` and the random local file generator are not modelled. They are parameters.
- The task timers (`tic`/`toc`) only log and are left out.
- numpy `mean`/`median`/`std` are not computed. The model keeps the samples and states when the three fields are present. The bot's `round()` of a float percentage is modelled exactly on rationals, rounding half to even.
- The process pool of `tasks/sync/database.py` is modelled as a sequential loop, because its units are independent.
- JSON decoding of HTTP bodies is left out. Bodies are taken as already decoded values.
- The crontab library is not part of this model. A job's schedule is the string the library prints for it, and `render()` is taken in the library's format: schedule, command, ` # comment` when there is one, the whole prefixed by `# ` when disabled. A job's standard-input part (`%…`) is not modelled.
- The Elasticsearch query language is not modelled beyond `term`, `range` and `size`. Its date math is resolved to integers.
- The `__del__` methods of `LFN2PFN` and `LFNPFNSpoofer` remove temporary local files. They are file-system cleanup and are left out.
- The import machinery of dynamic class loading (`importlib.import_module` and its `ImportError`) and the YAML/session bootstrapping are infrastructure and are left out. The `getattr` on the spoofer module is modelled (`UploadNondeterministic.LookupClass`).
- `SyncIam.Rucio.AddAccount` does not model Rucio's `Duplicate` reply. The same goes for `SyncIam.Rucio.SetStatus`, `SetType`, `AddAttribute`, `DeleteAttribute`, `SetLimit` and `AddIdentity` when the account is missing. The task calls each only where the account is known to be in that state.
- `SyncIam.Rucio.AddIdentity` does not record `default=True`, because no later step reads it.
- `ProbeFts.Run`: when classification raises, the contract does not say which transfers were already classified.
- `RucioWrappers.ListFileReplicas`: an RSE expression that is neither a string nor None is taken to be refused by the Rucio server; the client code that would send it is not part of this model.
- `SlackBot`: the `show replications for` path through Elasticsearch is not modelled. It cannot run as written because the import is commented out, so only its tally rules are modelled.
- `SlackBot.ParseInt` accepts an optional sign and ASCII digits only. Python's `int()` also accepts single underscores between digits (`1_0`) and non-ASCII decimal digits; for such an index the model raises as for an invalid index where the bot would use the job.
- `Text.Words` and `Text.StripSpaces` treat only ASCII whitespace as whitespace. Python's `str.split()` and `str.strip()` also use the Unicode whitespace characters, so a message containing, say, a no-break space is split differently.
- `SlackBot.RunJob` takes a job's output as text. Output that is not UTF-8 makes `decode` raise in the bot; the model does not show that raise.
- `Reports.Webhook` always has a `type` and a `url`. A configured webhook that lacks either key raises `KeyError` in the tasks that read it; the model does not show that raise.
- `EsStore.Database` always has a `type`, a `uri` and an `index`, and `ProbeHeartbeats.Service` always has a `name`, an `endpoint`, an `expected_status_code` and an `expected_content`. A configured database or service that lacks one of these keys raises `KeyError` in the probes that read it; the model does not show that raise.
- `ProbeFts.IndexAll` and `ProbeHeartbeats.IndexAll` therefore do not show the `KeyError` that a database entry without `type`, `uri` or `index`, or a service without `name`, raises while indexing.
- `ProbeFts.Run` likewise does not show the `KeyError` of a database entry that lacks `type`, `uri` or `index`.
- `ProbeHeartbeats.Run` does not show the `KeyError` of a service that lacks `endpoint`, `expected_status_code` or `expected_content`, which ends the checks at that service, nor the indexing `KeyError` above.
- `ProbeHeartbeats.Check` does not show the `KeyError` that `svc['endpoint']`, `svc['expected_status_code']` or `svc['expected_content']` raises on a service missing that key.
- `SyncDatabase.Run` takes `n_workers` to be an integer. A `None` value, which `Pool` would replace by the CPU count, and a non-integer are not modelled.
- `Pfns.AbsPathRoundTrip` requires that the directory and the name contain no `:`. The parser breaks only on a second `://`, so the lemma is stated for fewer inputs than the round trip holds for.
- `EsRucio.ExpandAsWritten` is bounded by a number of passes; the Python loop has no bound. See Findings.
- `EsRucio.ThroughputFields` and `EsRucio.ComputeThroughput` use the corrected once-per-DID expansion (`EsRucio.Expand`). For a container with a first-level child that has content, the loop as written never ends, so the source computes no throughput there; the model returns the fields of the intended expansion.
- `EsRucio.UpdateRuleWithDID` therefore sends an update for an OK rule on such a container when an FTS endpoint is given, where the source never returns and sends nothing.
- `SyncDatabase.Run` likewise ends `Finished` for such a hit, where in the source the worker never finishes and `pool.join()` never returns.

## Findings

| source | as written | input that shows it | evidently intended | confidence | as-written member | corrected member |
|---|---|---|---|---|---|---|
| src/common/es/rucio.py:147-155 | each pass lists the content of every DID found so far, including those already expanded, appends it again, and stops only after a pass adds nothing | a container whose first-level child is a dataset holding one file: every pass appends that file again, so the loop never ends and the throughput is never gathered | expand each DID once, ending with every file under the container | not executed | EsRucio.ExpandAsWritten | EsRucio.ExpandClosed |
