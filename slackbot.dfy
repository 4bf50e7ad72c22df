/**
  The Slack bot's message handler `reply`: the first command phrase the message contains
  decides the command, the commands that take arguments check their number of
  whitespace-separated tokens, and the job commands read and change the named user's
  crontab. The replication view's per-partner tallies are modelled as well.
 */
module SlackBot {
  import opened Wrappers
  import opened Text
  import opened Values

  // ---------------------------------------------------------------- dispatch

  datatype Command = Hello | ListCommands | ListJobs | ListRses | DisableJob | EnableJob
                   | ShowInformation | ShowReplications | StartJob

  /** The phrases checked against the message text, in the order they are checked. */
  const Phrases: seq<string> := ["hello", "list commands", "list jobs", "list rses", "disable job", "enable job",
                                 "show information for", "show replications for", "start job"]

  const Commands: seq<Command> := [Hello, ListCommands, ListJobs, ListRses, DisableJob, EnableJob,
                                   ShowInformation, ShowReplications, StartJob]

  /** The index of the first phrase, from `from` on, that the text contains. */
  function FirstMatch(text: string, ps: seq<string>, from: nat): (r: Option<nat>)
    ensures r.Some? ==> from <= r.value < |ps|
    decreases |ps| - from
  {
    if from >= |ps| then None
    else if Contains(text, ps[from]) then Some(from)
    else FirstMatch(text, ps, from + 1)
  }

  /** The first matching phrase is contained and no earlier one is; with no match, none is. */
  lemma {:induction false} FirstMatchMeans(text: string, ps: seq<string>, from: nat)
    ensures FirstMatch(text, ps, from).Some? ==>
      var i := FirstMatch(text, ps, from).value;
      Contains(text, ps[i]) && forall j :: from <= j < i ==> !Contains(text, ps[j])
    ensures FirstMatch(text, ps, from).None? <==> forall j :: from <= j < |ps| ==> !Contains(text, ps[j])
    decreases |ps| - from
  {
    if from < |ps| && !Contains(text, ps[from]) {
      FirstMatchMeans(text, ps, from + 1);
    }
  }

  /** The command of a message, or None when it contains no command phrase. */
  function Dispatch(text: string): Option<Command>
  {
    match FirstMatch(text, Phrases, 0)
    case None => None
    case Some(i) => Some(Commands[i])
  }

  /** Where the phrase checked at `i` is the first one contained. */
  lemma FirstMatchAt(text: string, ps: seq<string>, i: nat)
    requires i < |ps|
    ensures FirstMatch(text, ps, 0) == Some(i) <==>
      Contains(text, ps[i]) && forall j :: 0 <= j < i ==> !Contains(text, ps[j])
  {
    FirstMatchMeans(text, ps, 0);
    var f := FirstMatch(text, ps, 0);
    if Contains(text, ps[i]) && forall j :: 0 <= j < i ==> !Contains(text, ps[j]) {
      assert f.Some? && Contains(text, ps[f.value]);
      assert f.value >= i;
    }
  }

  /** The position of a command in the testing order. */
  function Rank(c: Command): (r: nat)
    ensures r < |Commands| && Commands[r] == c
  {
    match c
    case Hello => 0 case ListCommands => 1 case ListJobs => 2 case ListRses => 3 case DisableJob => 4
    case EnableJob => 5 case ShowInformation => 6 case ShowReplications => 7 case StartJob => 8
  }

  /** Command `i` is chosen iff the text contains its phrase and none of the phrases checked before it. */
  lemma DispatchMeans(text: string, i: nat)
    requires i < |Phrases|
    ensures Dispatch(text) == Some(Commands[i]) <==>
      Contains(text, Phrases[i]) && forall j :: 0 <= j < i ==> !Contains(text, Phrases[j])
  {
    FirstMatchAt(text, Phrases, i);
    var f := FirstMatch(text, Phrases, 0);
    if f.Some? && Commands[f.value] == Commands[i] {
      assert Rank(Commands[i]) == i;
      assert Rank(Commands[f.value]) == f.value;
    }
  }

  lemma DispatchNone(text: string)
    ensures Dispatch(text).None? <==> forall j :: 0 <= j < |Phrases| ==> !Contains(text, Phrases[j])
  {
    FirstMatchMeans(text, Phrases, 0);
  }

  // ---------------------------------------------------------------- RSE list

  /**
    The `-rses` default as written: two string literals, the first ending in `LAPP-DCACHE`
    and the second starting with `PIC-DCACHE`, with no separator between them.
   */
  const DefaultFirst: seq<string> := ["ALPAMED-DPM", "CNAF-STORM", "DESY-DCACHE", "EULAKE-1", "GSI-ROOT",
                                       "IN2P3-CC-DCACHE", "INFN-NA-DPM", "LAPP-DCACHE"]
  const DefaultSecond: seq<string> := ["PIC-DCACHE", "SARA-DCACHE", "LAPP-WEBDAV"]
  const DefaultRses: string := Join(DefaultFirst, ", ") + Join(DefaultSecond, ", ")

  /** `args.rses.split(', ')`. */
  function RseList(option: string): seq<string>
  {
    Split(option, ", ")
  }

  /** The entries the default splits into: ten, one of them the run-together `LAPP-DCACHEPIC-DCACHE`. */
  const DefaultList: seq<string> := ["ALPAMED-DPM", "CNAF-STORM", "DESY-DCACHE", "EULAKE-1", "GSI-ROOT", "IN2P3-CC-DCACHE",
                                     "INFN-NA-DPM", "LAPP-DCACHEPIC-DCACHE", "SARA-DCACHE", "LAPP-WEBDAV"]

  lemma DefaultRseList()
    ensures RseList(DefaultRses) == DefaultList
  {
    DefaultJoined();
    DefaultListNoComma();
    SplitJoin(DefaultList, ", ");
  }

  /** The default option is the ten entries joined by `, `. */
  lemma DefaultJoined()
    ensures DefaultRses == Join(DefaultList, ", ")
  {
    var xs := ["ALPAMED-DPM", "CNAF-STORM", "DESY-DCACHE", "EULAKE-1", "GSI-ROOT", "IN2P3-CC-DCACHE", "INFN-NA-DPM"];
    var ys := ["SARA-DCACHE", "LAPP-WEBDAV"];
    assert DefaultFirst == xs + ["LAPP-DCACHE"];
    assert DefaultSecond == ["PIC-DCACHE"] + ys;
    JoinGlue(xs, "LAPP-DCACHE", "PIC-DCACHE", ys, ", ");
    GluedName();
    assert xs + ["LAPP-DCACHEPIC-DCACHE"] + ys == DefaultList;
  }

  lemma DefaultListNoComma()
    ensures forall i :: 0 <= i < |DefaultList| ==> ", "[0] !in DefaultList[i]
  {
  }

  lemma GluedName()
    ensures "LAPP-DCACHE" + "PIC-DCACHE" == "LAPP-DCACHEPIC-DCACHE"
  {
    var a, b, c := "LAPP-DCACHE", "PIC-DCACHE", "LAPP-DCACHEPIC-DCACHE";
    assert forall i :: 0 <= i < |c| ==> (a + b)[i] == c[i];
  }

  /** `list rses` echoes the option back: joining the split with the same separator restores it. */
  lemma ListRsesEcho(option: string)
    ensures Join(RseList(option), ", ") == option
  {
    JoinSplit(option, ", ");
  }

  // ---------------------------------------------------------------- crontabs

  /**
    One crontab entry: its schedule as the crontab library prints it, its command, its
    trailing comment (empty for none), whether it is enabled and whether the library
    finds its schedule valid.
   */
  datatype CronJob = CronJob(schedule: string, command: string, comment: string, enabled: bool, valid: bool)

  /** The entry as an enabled line: schedule, command, then ` # comment` when it has one. */
  function EntryLine(j: CronJob): string
  {
    j.schedule + " " + j.command + (if j.comment == [] then "" else " # " + j.comment)
  }

  /** `job.render()`: a disabled entry is its line commented out. */
  function RenderJob(j: CronJob): string
  {
    if j.enabled then EntryLine(j) else "# " + EntryLine(j)
  }

  /**
    When neither schedule nor command holds a `#`, a job renders with a `#` iff it is
    disabled or carries a comment: an enabled job with a comment looks disabled.
   */
  lemma RenderMarks(j: CronJob)
    requires '#' !in j.schedule && '#' !in j.command
    ensures '#' in RenderJob(j) <==> !j.enabled || j.comment != []
  {
    var head := j.schedule + " " + j.command;
    if !j.enabled {
      assert RenderJob(j)[0] == '#';
    } else if j.comment != [] {
      assert RenderJob(j)[|head| + 1] == '#';
    } else {
      assert RenderJob(j) == head;
    }
  }

  /** A rendering breaks no line when the schedule, command and comment break none. */
  lemma RenderNoNewline(j: CronJob)
    requires '\n' !in j.schedule && '\n' !in j.command && '\n' !in j.comment
    ensures '\n' !in RenderJob(j)
  {
  }

  /** `'{:2}'.format(n)`. */
  function Pad2(n: nat): string
  {
    var d := NatToString(n);
    if |d| < 2 then Spaces(2 - |d|) + d else d
  }

  function JobPrefix(idx: nat): string
  {
    "[*" + Pad2(idx) + "*] "
  }

  /** One line of `list jobs`. */
  function JobLine(idx: nat, rendered: string): string
  {
    if '#' in rendered then JobPrefix(idx) + rendered + " (DISABLED)" else JobPrefix(idx) + rendered
  }

  /** A line carries the `(DISABLED)` suffix iff the rendered job contains `#`. */
  lemma DisabledMark(idx: nat, rendered: string)
    ensures JobLine(idx, rendered) == JobPrefix(idx) + rendered + " (DISABLED)" <==> '#' in rendered
    ensures '#' !in rendered ==> JobLine(idx, rendered) == JobPrefix(idx) + rendered
  {
    if '#' !in rendered {
      assert |JobLine(idx, rendered)| < |JobPrefix(idx) + rendered + " (DISABLED)"|;
    }
  }

  function JobLines(jobs: seq<CronJob>): (r: seq<string>)
    ensures |r| == |jobs|
  {
    seq(|jobs|, i requires 0 <= i < |jobs| => JobLine(i, RenderJob(jobs[i])))
  }

  /** The `list jobs` reply: one line per job in crontab order. */
  function ListJobsText(jobs: seq<CronJob>): string
  {
    Join(JobLines(jobs), "\n")
  }

  lemma PadNoNewline(n: nat)
    ensures '\n' !in Pad2(n)
  {
    var d := NatToString(n);
    if |d| < 2 {
      assert Pad2(n) == Spaces(2 - |d|) + d;
    }
  }

  /** With single-line commands, the reply splits back into exactly the job lines. */
  lemma ListJobsLines(jobs: seq<CronJob>)
    requires |jobs| >= 1
    requires forall i :: 0 <= i < |jobs| ==>
      '\n' !in jobs[i].schedule && '\n' !in jobs[i].command && '\n' !in jobs[i].comment
    ensures Split(ListJobsText(jobs), "\n") == JobLines(jobs)
    ensures forall i :: 0 <= i < |jobs| ==> Split(ListJobsText(jobs), "\n")[i] == JobLine(i, RenderJob(jobs[i]))
  {
    var ls := JobLines(jobs);
    forall i | 0 <= i < |ls| ensures "\n"[0] !in ls[i] {
      PadNoNewline(i);
      assert '\n' !in JobPrefix(i);
      RenderNoNewline(jobs[i]);
    }
    SplitJoin(ls, "\n");
  }

  // ---------------------------------------------------------------- integers and indexes

  predicate AllDigits(s: string)
  {
    forall i :: 0 <= i < |s| ==> '0' <= s[i] <= '9'
  }

  function DigitsValue(s: string): nat
    requires AllDigits(s)
    decreases |s|
  {
    if s == [] then 0 else 10 * DigitsValue(s[..|s| - 1]) + (s[|s| - 1] as int - '0' as int)
  }

  /** Python's `int(s)` on an optionally signed decimal numeral with surrounding whitespace; None for ValueError. */
  function ParseInt(s: string): Option<int>
  {
    ParseNumeral(StripSpaces(s))
  }

  /** An optionally signed run of decimal digits. */
  function ParseNumeral(t: string): Option<int>
  {
    if t == [] then None
    else if t[0] == '-' || t[0] == '+' then
      if |t| > 1 && AllDigits(t[1..]) then
        var v: int := DigitsValue(t[1..]);
        Some(if t[0] == '-' then -v else v)
      else None
    else if AllDigits(t) then Some(DigitsValue(t))
    else None
  }

  lemma {:induction false} DigitsOfNat(n: nat)
    ensures AllDigits(NatToString(n)) && DigitsValue(NatToString(n)) == n
  {
    var s := NatToString(n);
    if n >= 10 {
      DigitsOfNat(n / 10);
      assert s[..|s| - 1] == NatToString(n / 10);
      assert s[|s| - 1] == DigitChar(n % 10);
    } else {
      assert s == [DigitChar(n)];
    }
    DigitCharValue(if n < 10 then n else n % 10);
  }

  lemma DigitCharValue(d: nat)
    requires d < 10
    ensures DigitChar(d) as int - '0' as int == d
  {
  }

  /** A numeral has no surrounding whitespace to strip. */
  lemma StripNumeral(s: string)
    requires |s| >= 1 && (s[0] == '-' || '0' <= s[0] <= '9') && AllDigits(s[1..])
    ensures StripSpaces(s) == s
  {
    var cs := {' ', '\t', '\n', '\r', '\U{B}', '\U{C}'};
    assert s[0] !in cs;
    assert LStrip(s, cs) == s;
    if |s| > 1 {
      assert s[|s| - 1] == s[1..][|s| - 2];
    }
    assert s[|s| - 1] !in cs;
    assert RStrip(s, cs) == s;
  }

  /** `int(str(i)) == i`. */
  lemma ParseRendered(i: int)
    ensures ParseInt(IntToString(i)) == Some(i)
  {
    var s := IntToString(i);
    var d := NatToString(if i < 0 then -i else i);
    DigitsOfNat(if i < 0 then -i else i);
    if i < 0 {
      assert s == "-" + d && s[1..] == d;
      NumeralSigned(d);
    } else {
      assert s == d;
      NumeralUnsigned(d);
    }
    StripNumeral(s);
  }

  lemma NumeralSigned(d: string)
    requires d != [] && AllDigits(d)
    ensures ParseNumeral("-" + d) == Some(-(DigitsValue(d) as int))
  {
    assert ("-" + d)[1..] == d;
  }

  lemma NumeralUnsigned(d: string)
    requires d != [] && AllDigits(d)
    ensures ParseNumeral(d) == Some(DigitsValue(d))
  {
  }

  /** Python list indexing `xs[i]` with `|xs| == n`: negative indexes count from the end; None for IndexError. */
  function PyIndex(n: nat, i: int): (r: Option<nat>)
    ensures r.Some? ==> r.value < n
  {
    if 0 <= i < n then Some(i) else if -(n as int) <= i < 0 then Some(n + i) else None
  }

  // ---------------------------------------------------------------- replies

  /**
    What the handler depends on besides the message: the users `id -u` knows, each user's
    crontab (absent for none), the commands whose program cannot be started at all (`Popen`
    raises), and the output of each command that exits with status 0 (absent for a
    non-zero exit).
   */
  datatype Host = Host(users: set<string>, crons: map<string, seq<CronJob>>, unstartable: set<string>,
                       runs: map<string, string>)

  function CronOf(h: Host, user: string): seq<CronJob>
  {
    if user in h.crons then h.crons[user] else []
  }

  /** The messages posted in order, the crontabs afterwards, and whether the handler raised. */
  datatype Outcome = Outcome(posts: seq<string>, crons: map<string, seq<CronJob>>, raised: bool)

  const SyntaxHint: string := "Incorrect syntax, please see *list commands*"
  const NoSuchUser: string := "Could not find user"

  /** The `list commands` keys, in dictionary order. */
  const CommandHelp: seq<string> := ["hello", "disable job *<job_idx>* for *<user>*", "enable job *<job_idx>* for *<user>*",
                                     "show information for *<rse>*", "list commands", "list jobs for *<user>*", "list rses",
                                     "show replications for *<rse>*", "start job *<job_idx>* for *<user>*"]

  function Reply1(h: Host, text: string): Outcome
  {
    Outcome([text], h.crons, false)
  }

  function ListJobsReply(h: Host, text: string): Outcome
  {
    var ws := Words(text);
    if |ws| != 4 then Reply1(h, SyntaxHint)
    else if ws[3] !in h.users then Reply1(h, NoSuchUser)
    else Reply1(h, ListJobsText(CronOf(h, ws[3])))
  }

  /** `disable job` / `enable job`: the job's new state is written back only when its schedule is valid. */
  function SetEnabledReply(h: Host, text: string, enable: bool): Outcome
  {
    var ws := Words(text);
    if |ws| != 5 then Reply1(h, SyntaxHint)
    else if ws[4] !in h.users then Reply1(h, NoSuchUser)
    else
      var user := ws[4];
      match ParseInt(ws[2])
      case None => Outcome([], h.crons, true)
      case Some(idx) =>
        var jobs := CronOf(h, user);
        match PyIndex(|jobs|, idx)
        case None => Outcome([], h.crons, true)
        case Some(j) =>
          var job := jobs[j].(enabled := enable);
          var crons := if job.valid then h.crons[user := jobs[j := job]] else h.crons;
          Outcome([(if enable then "enabled job " else "disabled job ") + IntToString(idx) + " (" + RenderJob(job) + ")"],
                  crons, false)
  }

  /**
    `start job`: announce, then run the command and post its output or the failure. The
    syntax hint and the unknown-user text are assigned but never posted, so a wrong token
    count or an unknown user gets no reply at all.
   */
  function StartJobReply(h: Host, text: string): Outcome
  {
    var ws := Words(text);
    if |ws| != 5 || ws[4] !in h.users then Outcome([], h.crons, false)
    else
      var said := RunJob(h, CronOf(h, ws[4]), ws[2]);
      Outcome(said.0, h.crons, said.1)
  }

  /**
    The posts of running job `index` of `jobs`, and whether that raised: an index that is
    not an integer or out of range raises before anything is posted; a command that splits
    into no words (`Popen([])`) or whose program cannot be started raises after the
    announcement.
   */
  function RunJob(h: Host, jobs: seq<CronJob>, index: string): (seq<string>, bool)
  {
    match ParseInt(index)
    case None => ([], true)
    case Some(idx) =>
      match PyIndex(|jobs|, idx)
      case None => ([], true)
      case Some(j) =>
        var cmd := jobs[j].command;
        var running := "running job " + IntToString(idx) + " (" + cmd + ")";
        if Blank(cmd) || cmd in h.unstartable then ([running], true)
        else if cmd in h.runs then ([running, h.runs[cmd]], false)
        else ([running, "Failed to run job"], false)
  }

  /**
    `reply` for one message from `sender`, with the bot's RSE option and database type.
    `show information for` always raises (its Rucio client is not imported), as does
    `show replications for` on an `es` database; both raise first on fewer than four tokens.
   */
  function Reply(h: Host, text: string, sender: string, rsesOption: string, databaseType: string): Outcome
  {
    ReplyTo(h, Dispatch(text), text, sender, rsesOption, databaseType)
  }

  /** The reply once the command is known. */
  function ReplyTo(h: Host, command: Option<Command>, text: string, sender: string, rsesOption: string,
                   databaseType: string): Outcome
  {
    match command
    case None => Outcome([], h.crons, false)
    case Some(c) =>
      match c
      case Hello => Reply1(h, "Hello, <@" + sender + ">")
      case ListCommands => Reply1(h, Join(CommandHelp, "\n"))
      case ListJobs => ListJobsReply(h, text)
      case ListRses => Reply1(h, Join(RseList(rsesOption), ", "))
      case DisableJob => SetEnabledReply(h, text, false)
      case EnableJob => SetEnabledReply(h, text, true)
      case ShowInformation => Outcome([], h.crons, true)
      case ShowReplications =>
        if |Words(text)| < 4 || databaseType == "es" then Outcome([], h.crons, true) else Reply1(h, "")
      case StartJob => StartJobReply(h, text)
  }

  /** A message naming no command gets no reply and changes nothing. */
  lemma NoCommandNoReply(h: Host, text: string, sender: string, rsesOption: string, databaseType: string)
    requires forall j :: 0 <= j < |Phrases| ==> !Contains(text, Phrases[j])
    ensures Reply(h, text, sender, rsesOption, databaseType) == Outcome([], h.crons, false)
  {
    DispatchNone(text);
  }

  /** `disable job` and `enable job` need five tokens and `list jobs` four; otherwise the only reply is the hint. */
  lemma ArityHint(h: Host, command: Option<Command>, text: string, sender: string, rsesOption: string,
                  databaseType: string)
    requires (command in {Some(DisableJob), Some(EnableJob)} && |Words(text)| != 5)
             || (command == Some(ListJobs) && |Words(text)| != 4)
    ensures ReplyTo(h, command, text, sender, rsesOption, databaseType) == Outcome([SyntaxHint], h.crons, false)
  {
  }

  /** `list rses` posts the RSE option exactly as configured. */
  lemma ListRsesReply(h: Host, text: string, sender: string, rsesOption: string, databaseType: string)
    ensures ReplyTo(h, Some(ListRses), text, sender, rsesOption, databaseType) == Outcome([rsesOption], h.crons, false)
  {
    ListRsesEcho(rsesOption);
  }

  /**
    Disabling or enabling job `j` of a known user changes at most that user's crontab, and
    there only that job's enabled state, and only when its schedule is valid; the job's next
    `list jobs` line is marked `(DISABLED)` iff it was disabled or the job carries a comment.
   */
  lemma SetEnabledEffect(h: Host, text: string, enable: bool)
    requires var ws := Words(text);
      |ws| == 5 && ws[4] in h.users && ParseInt(ws[2]).Some? && PyIndex(|CronOf(h, ws[4])|, ParseInt(ws[2]).value).Some?
    ensures var ws := Words(text);
      var o := SetEnabledReply(h, text, enable);
      var jobs := CronOf(h, ws[4]);
      var j := PyIndex(|jobs|, ParseInt(ws[2]).value).value;
      !o.raised && |o.posts| == 1
      && (forall u :: u != ws[4] ==> (u in o.crons <==> u in h.crons) && (u in h.crons ==> o.crons[u] == h.crons[u]))
      && (jobs[j].valid ==>
            ws[4] in o.crons && |o.crons[ws[4]]| == |jobs|
            && o.crons[ws[4]][j] == jobs[j].(enabled := enable)
            && forall i :: 0 <= i < |jobs| && i != j ==> o.crons[ws[4]][i] == jobs[i])
      && (!jobs[j].valid ==> o.crons == h.crons)
      && ('#' !in jobs[j].schedule && '#' !in jobs[j].command ==>
            (JobLine(j, RenderJob(jobs[j].(enabled := enable))) == JobPrefix(j) + RenderJob(jobs[j].(enabled := enable)) + " (DISABLED)"
             <==> !enable || jobs[j].comment != []))
  {
    var ws := Words(text);
    var jobs := CronOf(h, ws[4]);
    var j := PyIndex(|jobs|, ParseInt(ws[2]).value).value;
    var job := jobs[j].(enabled := enable);
    if '#' !in jobs[j].schedule && '#' !in jobs[j].command {
      RenderMarks(job);
      DisabledMark(j, RenderJob(job));
    }
  }

  /** `start job` is the only command that posts twice; only disabling and enabling change a crontab. */
  lemma PostsAtMostTwo(h: Host, command: Option<Command>, text: string, sender: string, rsesOption: string,
                       databaseType: string)
    ensures |ReplyTo(h, command, text, sender, rsesOption, databaseType).posts| <= 2
    ensures |ReplyTo(h, command, text, sender, rsesOption, databaseType).posts| == 2 ==> command == Some(StartJob)
    ensures command != Some(DisableJob) && command != Some(EnableJob) ==>
      ReplyTo(h, command, text, sender, rsesOption, databaseType).crons == h.crons
  {
    match command
    case None =>
    case Some(c) =>
      match c
      case Hello =>
      case ListCommands =>
      case ListJobs =>
      case ListRses =>
      case DisableJob => SetEnabledPosts(h, text, false);
      case EnableJob => SetEnabledPosts(h, text, true);
      case ShowInformation =>
      case ShowReplications =>
      case StartJob => StartJobPosts(h, text);
  }

  lemma SetEnabledPosts(h: Host, text: string, enable: bool)
    ensures |SetEnabledReply(h, text, enable).posts| <= 1
  {
  }

  /**
    `start job` changes no crontab and posts at most twice: nothing on a wrong token count
    or an unknown user; for a job that can be run, the announcement and then the command's
    output or the failure text; when it raises, at most the announcement.
   */
  lemma StartJobPosts(h: Host, text: string)
    ensures var o := StartJobReply(h, text);
      o.crons == h.crons && |o.posts| <= 2 && (o.raised ==> |o.posts| <= 1)
    ensures var ws := Words(text);
      |ws| != 5 || ws[4] !in h.users ==> StartJobReply(h, text) == Outcome([], h.crons, false)
    ensures var ws := Words(text);
      |ws| == 5 && ws[4] in h.users && ParseInt(ws[2]).Some?
      && PyIndex(|CronOf(h, ws[4])|, ParseInt(ws[2]).value).Some? ==>
        var idx := ParseInt(ws[2]).value;
        var cmd := CronOf(h, ws[4])[PyIndex(|CronOf(h, ws[4])|, idx).value].command;
        var o := StartJobReply(h, text);
        |o.posts| >= 1 && o.posts[0] == "running job " + IntToString(idx) + " (" + cmd + ")"
        && (o.raised <==> Blank(cmd) || cmd in h.unstartable)
        && (!o.raised ==> o.posts == [o.posts[0], if cmd in h.runs then h.runs[cmd] else "Failed to run job"])
    ensures var ws := Words(text);
      |ws| == 5 && ws[4] in h.users
      && (ParseInt(ws[2]).None? || PyIndex(|CronOf(h, ws[4])|, ParseInt(ws[2]).value).None?) ==>
        StartJobReply(h, text) == Outcome([], h.crons, true)
  {
    var ws := Words(text);
    if |ws| == 5 && ws[4] in h.users {
      RunJobPosts(h, CronOf(h, ws[4]), ws[2]);
    }
  }

  /** Running a job: nothing is posted for a bad index, else the announcement and, unless it raised, one more post. */
  lemma RunJobPosts(h: Host, jobs: seq<CronJob>, index: string)
    ensures |RunJob(h, jobs, index).0| <= 2 && (RunJob(h, jobs, index).1 ==> |RunJob(h, jobs, index).0| <= 1)
    ensures ParseInt(index).None? || PyIndex(|jobs|, ParseInt(index).value).None? ==> RunJob(h, jobs, index) == ([], true)
    ensures ParseInt(index).Some? && PyIndex(|jobs|, ParseInt(index).value).Some? ==>
      var idx := ParseInt(index).value;
      var cmd := jobs[PyIndex(|jobs|, idx).value].command;
      var said := RunJob(h, jobs, index);
      |said.0| >= 1 && said.0[0] == "running job " + IntToString(idx) + " (" + cmd + ")"
      && (said.1 <==> Blank(cmd) || cmd in h.unstartable)
      && (!said.1 ==> said.0 == [said.0[0], if cmd in h.runs then h.runs[cmd] else "Failed to run job"])
  {
  }


  // ---------------------------------------------------------------- replication tallies

  /** The tallies of one partner RSE. */
  datatype Counts = Counts(submitted: nat, done: nat, stuck: nat, replicating: nat)

  /** `hit['_source'][k]` is truthy; the keys read are present (see `Readable`). */
  predicate Flag(d: Doc, k: string)
  {
    k in d && Truthy(d[k])
  }

  /** The keys the tally reads from a document exist: `is_stuck` only when not done, `is_replicating` only when neither. */
  predicate Readable(d: Doc)
  {
    "is_submitted" in d && "is_done" in d
    && (!Flag(d, "is_done") ==> "is_stuck" in d)
    && (!Flag(d, "is_done") && !Flag(d, "is_stuck") ==> "is_replicating" in d)
  }

  /** The state class of a hit: done before stuck before replicating; a hit is in at most one. */
  datatype Class = IsDone | IsStuck | IsReplicating | Unclassified

  function ClassOf(d: Doc): Class
  {
    if Flag(d, "is_done") then IsDone
    else if Flag(d, "is_stuck") then IsStuck
    else if Flag(d, "is_replicating") then IsReplicating
    else Unclassified
  }

  function CountSubmitted(ds: seq<Doc>): (n: nat)
    ensures n <= |ds|
  {
    if ds == [] then 0 else CountSubmitted(ds[..|ds| - 1]) + (if Flag(ds[|ds| - 1], "is_submitted") then 1 else 0)
  }

  function CountClass(ds: seq<Doc>, c: Class): (n: nat)
    ensures n <= |ds|
  {
    if ds == [] then 0 else CountClass(ds[..|ds| - 1], c) + (if ClassOf(ds[|ds| - 1]) == c then 1 else 0)
  }

  /** The tallies of the hits' sources, or None when one lacks a key the tally reads. */
  function Tallied(ds: seq<Doc>): Option<Counts>
  {
    if forall i :: 0 <= i < |ds| ==> Readable(ds[i]) then
      Some(Counts(CountSubmitted(ds), CountClass(ds, IsDone), CountClass(ds, IsStuck), CountClass(ds, IsReplicating)))
    else None
  }

  /** Each hit adds to at most one of done, stuck and replicating, so together they never exceed the hits. */
  lemma {:induction false} ClassesExclusive(ds: seq<Doc>)
    ensures CountClass(ds, IsDone) + CountClass(ds, IsStuck) + CountClass(ds, IsReplicating) <= |ds|
  {
    if ds != [] {
      ClassesExclusive(ds[..|ds| - 1]);
    }
  }

  /** The counter loop over the hits of one search. */
  method CountHits(ds: seq<Doc>) returns (r: Option<Counts>)
    ensures r == Tallied(ds)
  {
    var submitted, done, stuck, replicating := 0, 0, 0, 0;
    var i := 0;
    while i < |ds|
      invariant 0 <= i <= |ds|
      invariant forall j :: 0 <= j < i ==> Readable(ds[j])
      invariant submitted == CountSubmitted(ds[..i]) && done == CountClass(ds[..i], IsDone)
      invariant stuck == CountClass(ds[..i], IsStuck) && replicating == CountClass(ds[..i], IsReplicating)
    {
      var d := ds[i];
      assert ds[..i + 1][..i] == ds[..i];
      if "is_submitted" !in d || "is_done" !in d {
        return None;
      }
      if Flag(d, "is_submitted") {
        submitted := submitted + 1;
      }
      if Flag(d, "is_done") {
        done := done + 1;
      } else if "is_stuck" !in d {
        return None;
      } else if Flag(d, "is_stuck") {
        stuck := stuck + 1;
      } else if "is_replicating" !in d {
        return None;
      } else if Flag(d, "is_replicating") {
        replicating := replicating + 1;
      }
      i := i + 1;
    }
    assert ds[..i] == ds;
    r := Some(Counts(submitted, done, stuck, replicating));
  }

  /** Python's `round(a / b)` for exact rationals: to the nearest integer, ties to even. */
  function RoundHalfEven(a: nat, b: nat): nat
    requires b > 0
  {
    var q, r := a / b, a % b;
    if 2 * r > b then q + 1 else if 2 * r < b then q else if q % 2 == 0 then q else q + 1
  }

  /** The success percentage: 0 without submitted hits, else done over submitted, rounded. */
  function Percent(c: Counts): nat
  {
    if c.submitted == 0 then 0 else RoundHalfEven(100 * c.done, c.submitted)
  }

  /** The percentage is 0 iff nothing was submitted or at most half a percent is done. */
  lemma PercentZero(c: Counts)
    ensures Percent(c) == 0 <==> c.submitted == 0 || 200 * c.done <= c.submitted
  {
    if c.submitted > 0 {
      RoundZero(100 * c.done, c.submitted);
    }
  }

  /** `a / b` rounds to 0 iff it is at most one half. */
  lemma RoundZero(a: nat, b: nat)
    requires b > 0
    ensures RoundHalfEven(a, b) == 0 <==> 2 * a <= b
  {
    var q, r := a / b, a % b;
    if 2 * a <= b {
      SmallQuotient(a, b);
    } else if q == 0 {
      QuotientZero(a, b);
    }
  }

  lemma SmallQuotient(a: nat, b: nat)
    requires a < b
    ensures a / b == 0 && a % b == a
  {
  }

  lemma QuotientZero(a: nat, b: nat)
    requires b > 0 && a / b == 0
    ensures a % b == a
  {
  }

  /** One partner line; the destination lines carry a stray `(` before the RSE, as written. */
  function PartnerLine(rse: string, pct: nat, asDestination: bool): string
  {
    if pct == 0 then ":skull: " + rse + ":\t0%"
    else (if asDestination then "(" else "") + rse + ":\t" + NatToString(pct) + "%"
  }

  /** The skull opens a line iff the percentage is 0 (for RSE names without `:`). */
  lemma SkullIff(rse: string, pct: nat, asDestination: bool)
    requires rse != [] && ':' !in rse
    ensures ":skull: " <= PartnerLine(rse, pct, asDestination) <==> pct == 0
  {
    var line := PartnerLine(rse, pct, asDestination);
    if pct != 0 {
      if asDestination {
        assert line[0] == '(';
      } else {
        assert line[0] == rse[0];
      }
    }
  }

  /** The partners of the requested RSE, in list order: every configured RSE but itself. */
  function Partners(requested: string, rses: seq<string>): (r: seq<string>)
    ensures |r| <= |rses|
  {
    if rses == [] then []
    else Partners(requested, rses[..|rses| - 1]) + (if rses[|rses| - 1] == requested then [] else [rses[|rses| - 1]])
  }

  lemma {:induction false} PartnersMeans(requested: string, rses: seq<string>)
    ensures forall x :: x in Partners(requested, rses) <==> x in rses && x != requested
    ensures requested !in rses ==> Partners(requested, rses) == rses
  {
    if rses != [] {
      var n := |rses| - 1;
      PartnersMeans(requested, rses[..n]);
      assert rses == rses[..n] + [rses[n]];
    }
  }
}
