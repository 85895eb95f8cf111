/**
 * Row flattening in the current pipeline: a decoded monitor and its alert
 * channels become one table row per channel, and a suite's rows are the rows
 * of all its monitors. The fetched detail payloads are inputs here; `None`
 * stands for a request, or the decoding of its JSON body, that raised.
 */
module Rows {
  import opened Basics
  import opened NameGrammar
  import opened Channels

  /** The `data` object of `GET /watchlists/{id}/`, after the `.get` defaults. */
  datatype WatchlistDetail = WatchlistDetail(
    id: Option<string>, name: string, description: string,
    alertPolicies: Option<seq<AlertPolicy>>)

  /** The `data` object of `GET /custom-agents/{id}/`; `ruleString` is `rule.ruleString` when both exist. */
  datatype AgentDetail = AgentDetail(
    id: Option<string>, agentName: string, agentType: Option<string>,
    ruleString: Option<string>, alertPolicies: Option<seq<AlertPolicy>>)

  /** A suite of the suite list, with the fetched detail of each of its monitors. */
  datatype Suite = Suite(
    name: string, watchlists: seq<Option<WatchlistDetail>>, customAgents: seq<Option<AgentDetail>>)

  /** One task submitted to the monitor pool. */
  datatype MonitorTask = WatchlistTask(watchlist: Option<WatchlistDetail>) | AgentTask(agent: Option<AgentDetail>)

  /** Every column of a row except the alert channel and its client. */
  datatype MonitorRecord = MonitorRecord(
    fullSuiteName: string, suite: SuiteFields,
    fullMonitorName: string, monitorType: string, monitor: MonitorFields,
    description: string, link: string, kind: string)

  /** One output row: a monitor, one of its alert channels, and the client owning that channel. */
  datatype Row = Row(record: MonitorRecord, alertChannel: string, client: string)

  const WatchlistLinkBase: string := "https://app.hypernative.xyz/watchlist/"
  const AgentLinkBase: string := "https://app.hypernative.xyz/custom-agents?agentId="

  /** A deep link, or `""` when the payload's id is falsy. */
  function Link(base: string, id: Option<string>): string {
    if id.Some? && id.value != "" then base + id.value else ""
  }

  /** `alert_channels or ["None"]` */
  function RowChannels(channels: seq<string>): seq<string> {
    if channels == [] then ["None"] else channels
  }

  /** One row per channel of `RowChannels(channels)`, in order. */
  function ChannelRows(record: MonitorRecord, channels: seq<string>, directory: seq<ChannelEntry>): seq<Row> {
    var chs := RowChannels(channels);
    seq(|chs|, i requires 0 <= i < |chs| => Row(record, chs[i], ClientDao(directory, chs[i])))
  }

  function WatchlistRecord(suiteName: string, suite: SuiteFields, wl: WatchlistDetail, f: MonitorFields): MonitorRecord {
    MonitorRecord(suiteName, suite, wl.name, "Watchlist", f, wl.description,
                  Link(WatchlistLinkBase, wl.id), "Watchlist")
  }

  /** The description is the rule string, or the agent name when the rule is missing. */
  function AgentRecord(suiteName: string, suite: SuiteFields, a: AgentDetail, f: MonitorFields): MonitorRecord {
    MonitorRecord(suiteName, suite, a.agentName, a.agentType.GetOr("Custom Agent"), f,
                  a.ruleString.GetOr(a.agentName), Link(AgentLinkBase, a.id), "Custom Agent")
  }

  /** `_fetch_watchlist_data`: its rows, or the exception it raises. */
  function WatchlistOutcome(suiteName: string, suite: SuiteFields, fetched: Option<WatchlistDetail>,
                            directory: seq<ChannelEntry>): Outcome<seq<Row>> {
    match fetched
    case None => Raised(RequestError)
    case Some(wl) =>
      match ParseWatchlistName(wl.name)
      case Error(e) => Raised(e)
      case NoMatch => Ok([])
      case Match(f) =>
        Ok(ChannelRows(WatchlistRecord(suiteName, suite, wl, f), Dedup(ChannelNames(wl.alertPolicies)), directory))
  }

  /** `_fetch_agent_data`: its rows, or the exception it raises. */
  function AgentOutcome(suiteName: string, suite: SuiteFields, fetched: Option<AgentDetail>,
                        directory: seq<ChannelEntry>): Outcome<seq<Row>> {
    match fetched
    case None => Raised(RequestError)
    case Some(a) =>
      match ParseCustomAgentName(a.agentName)
      case Error(e) => Raised(e)
      case NoMatch => Ok([])
      case Match(f) =>
        Ok(ChannelRows(AgentRecord(suiteName, suite, a, f), Dedup(ChannelNames(a.alertPolicies)), directory))
  }

  /** `_fetch_monitor_data`: an exception inside the task becomes no rows. */
  function TaskRows(suiteName: string, suite: SuiteFields, task: MonitorTask, directory: seq<ChannelEntry>): seq<Row> {
    var outcome := match task
      case WatchlistTask(w) => WatchlistOutcome(suiteName, suite, w, directory)
      case AgentTask(a) => AgentOutcome(suiteName, suite, a, directory);
    match outcome
    case Ok(rows) => rows
    case Raised(_) => []
  }

  /** The tasks of a suite: its watchlists, then its custom agents. */
  function Tasks(s: Suite): seq<MonitorTask> {
    seq(|s.watchlists|, i requires 0 <= i < |s.watchlists| => WatchlistTask(s.watchlists[i])) +
    seq(|s.customAgents|, i requires 0 <= i < |s.customAgents| => AgentTask(s.customAgents[i]))
  }

  /** The rows of each task, in submission order. */
  function RowGroups(suiteName: string, suite: SuiteFields, tasks: seq<MonitorTask>,
                     directory: seq<ChannelEntry>): seq<seq<Row>> {
    seq(|tasks|, i requires 0 <= i < |tasks| => TaskRows(suiteName, suite, tasks[i], directory))
  }

  /** The rows of each task of a suite. */
  function TaskGroups(s: Suite, suite: SuiteFields, directory: seq<ChannelEntry>): seq<seq<Row>> {
    RowGroups(s.name, suite, Tasks(s), directory)
  }

  /** `fetch_suit_data`: the rows of a suite, or the exception its name decoding raises. */
  function SuiteOutcome(s: Suite, directory: seq<ChannelEntry>): Outcome<seq<Row>> {
    match ParseSuiteName(s.name)
    case Error(e) => Raised(e)
    case NoMatch => Ok([])
    case Match(f) => Ok(Flatten(TaskGroups(s, f, directory)))
  }

  // --------------------------------------------------------------- methods

  /** The `for ch in channels_for_rows` loop shared by both row builders. */
  method BuildRows(record: MonitorRecord, channels: seq<string>, directory: seq<ChannelEntry>)
    returns (rows: seq<Row>)
    ensures rows == ChannelRows(record, channels, directory)
    ensures |rows| == if channels == [] then 1 else |channels|
  {
    var chs := if channels == [] then ["None"] else channels;
    rows := [];
    for i := 0 to |chs|
      invariant |rows| == i
      invariant forall k :: 0 <= k < i ==> rows[k] == Row(record, chs[k], ClientDao(directory, chs[k]))
    {
      var ch := chs[i];
      var clientDao := ClientDao(directory, ch);
      rows := rows + [Row(record, ch, clientDao)];
    }
  }

  method FetchWatchlistData(suiteName: string, suite: SuiteFields, fetched: Option<WatchlistDetail>,
                            directory: seq<ChannelEntry>) returns (r: Outcome<seq<Row>>)
    ensures r == WatchlistOutcome(suiteName, suite, fetched, directory)
  {
    if fetched.None? {
      return Raised(RequestError);
    }
    var wl := fetched.value;
    var parsed := ParseWatchlistName(wl.name);
    match parsed {
      case Error(e) => r := Raised(e);
      case NoMatch => r := Ok([]);
      case Match(f) =>
        var alertChannels := ExtractChannels(wl.alertPolicies);
        var rows := BuildRows(WatchlistRecord(suiteName, suite, wl, f), alertChannels, directory);
        r := Ok(rows);
    }
  }

  method FetchAgentData(suiteName: string, suite: SuiteFields, fetched: Option<AgentDetail>,
                        directory: seq<ChannelEntry>) returns (r: Outcome<seq<Row>>)
    ensures r == AgentOutcome(suiteName, suite, fetched, directory)
  {
    if fetched.None? {
      return Raised(RequestError);
    }
    var a := fetched.value;
    var parsed := ParseCustomAgentName(a.agentName);
    match parsed {
      case Error(e) => r := Raised(e);
      case NoMatch => r := Ok([]);
      case Match(f) =>
        var alertChannels := ExtractChannels(a.alertPolicies);
        var rows := BuildRows(AgentRecord(suiteName, suite, a, f), alertChannels, directory);
        r := Ok(rows);
    }
  }

  method FetchMonitorData(suiteName: string, suite: SuiteFields, task: MonitorTask,
                          directory: seq<ChannelEntry>) returns (rows: seq<Row>)
    ensures rows == TaskRows(suiteName, suite, task, directory)
  {
    var r: Outcome<seq<Row>>;
    match task {
      case WatchlistTask(w) => r := FetchWatchlistData(suiteName, suite, w, directory);
      case AgentTask(a) => r := FetchAgentData(suiteName, suite, a, directory);
    }
    rows := if r.Ok? then r.value else [];
  }

  /** The two submission loops of `fetch_suit_data`: every watchlist, then every custom agent. */
  method SubmitTasks(s: Suite) returns (tasks: seq<MonitorTask>)
    ensures tasks == Tasks(s)
  {
    tasks := [];
    for i := 0 to |s.watchlists|
      invariant tasks == Tasks(s)[..i]
    {
      tasks := tasks + [WatchlistTask(s.watchlists[i])];
    }
    for i := 0 to |s.customAgents|
      invariant tasks == Tasks(s)[..|s.watchlists| + i]
    {
      tasks := tasks + [AgentTask(s.customAgents[i])];
    }
  }

  /** The collecting loop of `fetch_suit_data`: each task's rows, appended in turn. */
  method CollectRows(suiteName: string, suite: SuiteFields, tasks: seq<MonitorTask>, directory: seq<ChannelEntry>)
    returns (results: seq<Row>)
    ensures results == Flatten(RowGroups(suiteName, suite, tasks, directory))
  {
    ghost var groups := RowGroups(suiteName, suite, tasks, directory);
    results := [];
    for i := 0 to |tasks|
      invariant results == Flatten(groups[..i])
    {
      var rows := FetchMonitorData(suiteName, suite, tasks[i], directory);
      assert rows == groups[i];
      FlattenSnoc(groups[..i], rows);
      assert groups[..i + 1] == groups[..i] + [rows];
      results := results + rows;
    }
    assert groups[..|tasks|] == groups;
  }

  /**
   * `fetch_suit_data`: decode the suite name, submit one task per monitor,
   * and extend the result with each task's rows. The pool's completion order
   * is taken to be submission order; `CompletionOrderIrrelevant` shows that
   * any other order yields the same rows.
   */
  method FetchSuitData(s: Suite, directory: seq<ChannelEntry>) returns (r: Outcome<seq<Row>>)
    ensures r == SuiteOutcome(s, directory)
  {
    var parsed := ParseSuiteName(s.name);
    match parsed {
      case Error(e) => r := Raised(e);
      case NoMatch => r := Ok([]);
      case Match(suite) =>
        var tasks := SubmitTasks(s);
        var results := CollectRows(s.name, suite, tasks, directory);
        r := Ok(results);
    }
  }

  // ------------------------------------------------------------ properties

  /**
   * A decoded monitor yields one row per distinct channel name, in encounter
   * order, or a single placeholder row when it has none; every row carries
   * the same monitor columns.
   */
  lemma MonitorRowsPerChannel(record: MonitorRecord, policies: Option<seq<AlertPolicy>>, directory: seq<ChannelEntry>)
    ensures var names := ChannelNames(policies);
      var rows := ChannelRows(record, Dedup(names), directory);
      && |rows| == (if names == [] then 1 else |Dedup(names)|)
      && (forall i :: 0 <= i < |rows| ==> rows[i].record == record)
      && (forall i, j :: 0 <= i < j < |rows| ==> rows[i].alertChannel != rows[j].alertChannel)
      && (names == [] ==> rows == [Row(record, "None", "None")])
      && (names != [] ==> forall i :: 0 <= i < |rows| ==> rows[i].alertChannel in names)
      && (forall n :: n in names ==> exists i :: 0 <= i < |rows| && rows[i].alertChannel == n)
  {
    var names := ChannelNames(policies);
    DedupNoDuplicates(names);
    DedupSameElements(names);
    var rows := ChannelRows(record, Dedup(names), directory);
    if names == [] {
      assert ClientDao(directory, "None") == "None";
    } else {
      assert Dedup(names) != [] by { assert names[0] in Dedup(names); }
      forall n | n in names ensures exists i :: 0 <= i < |rows| && rows[i].alertChannel == n {
        var i :| 0 <= i < |Dedup(names)| && Dedup(names)[i] == n;
        assert rows[i].alertChannel == n;
      }
    }
  }

  /**
   * Every row's client is the `"None"` sentinel or the dao of the last
   * directory entry that owns the row's channel; never empty.
   */
  lemma RowClientIsOwner(record: MonitorRecord, channels: seq<string>, directory: seq<ChannelEntry>)
    ensures forall r :: r in ChannelRows(record, channels, directory) ==>
      r.client != "" &&
      (r.client == "None" || exists k :: IsLastOwner(directory, r.alertChannel, k) && r.client == directory[k].dao.value)
  {
    forall r | r in ChannelRows(record, channels, directory)
      ensures r.client != "" &&
        (r.client == "None" || exists k :: IsLastOwner(directory, r.alertChannel, k) && r.client == directory[k].dao.value)
    {
      ClientDaoNoneIff(directory, r.alertChannel);
    }
  }

  /** A watchlist whose name does not decode contributes no row, whatever its channels. */
  lemma UndecodableWatchlistNoRows(suiteName: string, suite: SuiteFields, wl: WatchlistDetail, directory: seq<ChannelEntry>)
    requires !ParseWatchlistName(wl.name).Match?
    ensures TaskRows(suiteName, suite, WatchlistTask(Some(wl)), directory) == []
  {
  }

  /**
   * A failing monitor task takes away exactly its own rows: replacing one
   * watchlist's fetched detail by a failed request leaves every other
   * task's rows in the suite's output.
   */
  lemma FailedWatchlistIsolated(s: Suite, k: nat, directory: seq<ChannelEntry>)
    requires k < |s.watchlists| && ParseSuiteName(s.name).Match?
    ensures var s' := s.(watchlists := s.watchlists[k := None]);
      var lost := TaskRows(s.name, ParseSuiteName(s.name).fields, WatchlistTask(s.watchlists[k]), directory);
      SuiteOutcome(s', directory).Ok? &&
      multiset(SuiteOutcome(s', directory).value) + multiset(lost) == multiset(SuiteOutcome(s, directory).value)
  {
    var s' := s.(watchlists := s.watchlists[k := None]);
    var f := ParseSuiteName(s.name).fields;
    var groups := TaskGroups(s, f, directory);
    assert Tasks(s)[k] == WatchlistTask(s.watchlists[k]);
    assert TaskGroups(s', f, directory) == groups[k := []] by {
      assert Tasks(s') == Tasks(s)[k := WatchlistTask(None)];
    }
    DropGroup(groups, k);
  }

  /** The same isolation for a custom agent whose detail request fails. */
  lemma FailedAgentIsolated(s: Suite, k: nat, directory: seq<ChannelEntry>)
    requires k < |s.customAgents| && ParseSuiteName(s.name).Match?
    ensures var s' := s.(customAgents := s.customAgents[k := None]);
      var lost := TaskRows(s.name, ParseSuiteName(s.name).fields, AgentTask(s.customAgents[k]), directory);
      SuiteOutcome(s', directory).Ok? &&
      multiset(SuiteOutcome(s', directory).value) + multiset(lost) == multiset(SuiteOutcome(s, directory).value)
  {
    var s' := s.(customAgents := s.customAgents[k := None]);
    var f := ParseSuiteName(s.name).fields;
    var groups := TaskGroups(s, f, directory);
    var at := |s.watchlists| + k;
    assert Tasks(s)[at] == AgentTask(s.customAgents[k]);
    assert TaskGroups(s', f, directory) == groups[at := []] by {
      assert Tasks(s') == Tasks(s)[at := AgentTask(None)];
    }
    DropGroup(groups, at);
  }

  /**
   * The monitor pool hands back task results in completion order, which may
   * be any permutation of the tasks: the rows are the same multiset.
   */
  lemma CompletionOrderIrrelevant(s: Suite, directory: seq<ChannelEntry>, completed: seq<seq<Row>>)
    requires ParseSuiteName(s.name).Match?
    requires multiset(completed) == multiset(TaskGroups(s, ParseSuiteName(s.name).fields, directory))
    ensures multiset(Flatten(completed)) == multiset(SuiteOutcome(s, directory).value)
  {
    FlattenPermutation(completed, TaskGroups(s, ParseSuiteName(s.name).fields, directory));
  }

  /**
   * A decodable suite with one decodable watchlist carrying two distinct
   * channel names yields exactly two rows, sharing every monitor column and
   * differing in channel.
   */
  lemma OneWatchlistTwoChannels(s: Suite, directory: seq<ChannelEntry>, a: string, b: string)
    requires ParseSuiteName(s.name).Match? && s.customAgents == [] && |s.watchlists| == 1
    requires s.watchlists[0].Some? && ParseWatchlistName(s.watchlists[0].value.name).Match?
    requires Dedup(ChannelNames(s.watchlists[0].value.alertPolicies)) == [a, b] && a != b
    ensures var rows := SuiteOutcome(s, directory).value;
      |rows| == 2 && rows[0].record == rows[1].record &&
      rows[0].alertChannel == a && rows[1].alertChannel == b &&
      rows[0].client == ClientDao(directory, a) && rows[1].client == ClientDao(directory, b)
  {
    var f := ParseSuiteName(s.name).fields;
    var groups := TaskGroups(s, f, directory);
    assert Tasks(s) == [WatchlistTask(s.watchlists[0])];
    assert Flatten(groups) == groups[0] + Flatten(groups[1..]);
    assert groups[1..] == [];
  }
}
