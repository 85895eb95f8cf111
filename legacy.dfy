/**
 * The first pipeline version: `remove_alert_policies` and the nested loop of
 * `get_hn_monitors`, which emits one row per decoded monitor carrying the
 * channel names of its first alert policy. A suite name whose decoding raises
 * aborts the whole run; a monitor that raises is skipped.
 */
module Legacy {
  import opened Basics
  import opened NameGrammar
  import opened Channels
  import opened Rows
  import LegacyGrammar

  // ------------------------------------------------- remove_alert_policies

  /** A JSON object that is updated in place. */
  class JsonObject<V> {
    var entries: map<string, V>

    constructor(entries: map<string, V>)
      ensures this.entries == entries
    {
      this.entries := entries;
    }
  }

  const AlertPoliciesKey: string := "alertPolicies"

  function WithoutAlertPolicies<V>(m: map<string, V>): map<string, V> {
    m - {AlertPoliciesKey}
  }

  /** `remove_alert_policies`: deletes the key in place and returns the same object. */
  method RemoveAlertPolicies<V>(data: JsonObject<V>) returns (r: JsonObject<V>)
    modifies data
    ensures r == data
    ensures data.entries == WithoutAlertPolicies(old(data.entries))
  {
    if AlertPoliciesKey in data.entries {
      data.entries := data.entries - {AlertPoliciesKey};
    }
    r := data;
  }

  /** After removal the key is absent and every other key keeps its value. */
  lemma RemovalKeepsOtherKeys<V>(m: map<string, V>)
    ensures AlertPoliciesKey !in WithoutAlertPolicies(m)
    ensures forall k :: k != AlertPoliciesKey ==>
      (k in m <==> k in WithoutAlertPolicies(m)) && (k in m ==> WithoutAlertPolicies(m)[k] == m[k])
  {
  }

  /** Removing twice is removing once; an object without the key is left as it is. */
  lemma RemovalIdempotent<V>(m: map<string, V>)
    ensures WithoutAlertPolicies(WithoutAlertPolicies(m)) == WithoutAlertPolicies(m)
    ensures AlertPoliciesKey !in m ==> WithoutAlertPolicies(m) == m
  {
  }

  // ------------------------------------------------------------ the rows

  /** A legacy row: one per monitor, with the whole channel list. */
  datatype LegacyRow = LegacyRow(suite: SuiteFields, monitor: MonitorFields, alertChannels: seq<string>, monitorType: string)

  /** `[c["name"] for c in configs]`: every name, in order, duplicates kept; a missing name raises. */
  function ConfigNamesStrict(configs: seq<ChannelConfig>): (r: Outcome<seq<string>>)
    ensures r.Ok? <==> forall i :: 0 <= i < |configs| ==> configs[i].name.Some?
    ensures r.Raised? ==> r.error == KeyError
    ensures r.Ok? ==> |r.value| == |configs| && forall i :: 0 <= i < |configs| ==> r.value[i] == configs[i].name.value
  {
    if configs == [] then Ok([])
    else
      match configs[0].name
      case None => Raised(KeyError)
      case Some(n) =>
        match ConfigNamesStrict(configs[1..])
        case Raised(e) => Raised(e)
        case Ok(rest) => Ok([n] + rest)
  }

  /** `data["alertPolicies"][0]["channelsConfigurations"]` and its names. */
  function LegacyChannels(policies: Option<seq<AlertPolicy>>): Outcome<seq<string>> {
    match policies
    case None => Raised(KeyError)
    case Some(ps) =>
      if ps == [] then Raised(IndexError)
      else
        match ps[0].channelsConfigurations
        case None => Raised(KeyError)
        case Some(cs) => ConfigNamesStrict(cs)
  }

  /** The channel loop of one monitor. */
  method ReadChannels(policies: Option<seq<AlertPolicy>>) returns (r: Outcome<seq<string>>)
    ensures r == LegacyChannels(policies)
  {
    if policies.None? {
      return Raised(KeyError);
    }
    if policies.value == [] {
      return Raised(IndexError);
    }
    var alertChannelsConfig := policies.value[0];
    if alertChannelsConfig.channelsConfigurations.None? {
      return Raised(KeyError);
    }
    var configs := alertChannelsConfig.channelsConfigurations.value;
    var alertChannels: seq<string> := [];
    for i := 0 to |configs|
      invariant forall k :: 0 <= k < i ==> configs[k].name.Some?
      invariant alertChannels == seq(i, k requires 0 <= k < i => configs[k].name.value)
    {
      if configs[i].name.None? {
        return Raised(KeyError);
      }
      alertChannels := alertChannels + [configs[i].name.value];
    }
    var expected := ConfigNamesStrict(configs);
    assert expected.Ok? && |expected.value| == |alertChannels|;
    assert forall k :: 0 <= k < |configs| ==> expected.value[k] == alertChannels[k];
    assert expected.value == alertChannels;
    return Ok(alertChannels);
  }

  /** After a monitor's name is decoded: the decode outcome, then its channels, then one row. */
  function LegacyMonitorOutcome(suite: SuiteFields, decoded: Decoded<MonitorFields>,
                                policies: Option<seq<AlertPolicy>>, monitorType: string): Outcome<seq<LegacyRow>> {
    match decoded
    case Error(e) => Raised(e)
    case NoMatch => Ok([])
    case Match(f) =>
      match LegacyChannels(policies)
      case Raised(e) => Raised(e)
      case Ok(chs) => Ok([LegacyRow(suite, f, chs, monitorType)])
  }

  /** One monitor of the loop: an exception is printed and the monitor skipped. */
  function LegacyTaskRows(suite: SuiteFields, task: MonitorTask): seq<LegacyRow> {
    var outcome := match task
      case WatchlistTask(None) => Raised(RequestError)
      case WatchlistTask(Some(wl)) =>
        LegacyMonitorOutcome(suite, LegacyGrammar.ParseWatchlistName(wl.name), wl.alertPolicies, "Watchlist")
      case AgentTask(None) => Raised(RequestError)
      case AgentTask(Some(a)) =>
        LegacyMonitorOutcome(suite, LegacyGrammar.ParseCustomAgentName(a.agentName), a.alertPolicies, "Custom Agent");
    match outcome
    case Ok(rows) => rows
    case Raised(_) => []
  }

  /** The rows of each monitor, in loop order. */
  function LegacyRowGroups(suite: SuiteFields, tasks: seq<MonitorTask>): seq<seq<LegacyRow>> {
    seq(|tasks|, i requires 0 <= i < |tasks| => LegacyTaskRows(suite, tasks[i]))
  }

  /** The rows of each monitor of a suite: its watchlists, then its custom agents. */
  function LegacySuiteGroups(s: Suite, suite: SuiteFields): seq<seq<LegacyRow>> {
    LegacyRowGroups(suite, Tasks(s))
  }

  /** One suite of the loop; the suite name's decoding is outside any `try`. */
  function LegacySuiteOutcome(s: Suite): Outcome<seq<LegacyRow>> {
    match ParseSuiteName(s.name)
    case Error(e) => Raised(e)
    case NoMatch => Ok([])
    case Match(f) => Ok(Flatten(LegacySuiteGroups(s, f)))
  }

  /** `get_hn_monitors` over the suite list. */
  function LegacyTable(suites: seq<Suite>): Outcome<seq<LegacyRow>>
    decreases |suites|
  {
    if suites == [] then Ok([])
    else
      match LegacyTable(suites[..|suites| - 1])
      case Raised(e) => Raised(e)
      case Ok(prev) =>
        match LegacySuiteOutcome(suites[|suites| - 1])
        case Raised(e) => Raised(e)
        case Ok(rows) => Ok(prev + rows)
  }

  /** The monitor loops of one suite. */
  method LegacySuiteRows(s: Suite, suite: SuiteFields) returns (rows: seq<LegacyRow>)
    ensures rows == Flatten(LegacySuiteGroups(s, suite))
  {
    var tasks := SubmitTasks(s);
    ghost var groups := LegacyRowGroups(suite, tasks);
    rows := [];
    for i := 0 to |tasks|
      invariant rows == Flatten(groups[..i])
    {
      var monitorRows := LegacyMonitor(suite, tasks[i]);
      assert monitorRows == groups[i];
      FlattenSnoc(groups[..i], monitorRows);
      assert groups[..i + 1] == groups[..i] + [monitorRows];
      rows := rows + monitorRows;
    }
    assert groups[..|tasks|] == groups;
  }

  /** One monitor of the loop: its `try` body, with an exception printed and the monitor skipped. */
  method LegacyMonitor(suite: SuiteFields, task: MonitorTask) returns (monitorRows: seq<LegacyRow>)
    ensures monitorRows == LegacyTaskRows(suite, task)
  {
    monitorRows := [];
    var r: Outcome<seq<LegacyRow>> := Raised(RequestError);
    match task {
      case WatchlistTask(w) =>
        if w.Some? {
          r := LegacyMonitorRun(suite, LegacyGrammar.ParseWatchlistName(w.value.name), w.value.alertPolicies, "Watchlist");
        }
      case AgentTask(a) =>
        if a.Some? {
          r := LegacyMonitorRun(suite, LegacyGrammar.ParseCustomAgentName(a.value.agentName), a.value.alertPolicies, "Custom Agent");
        }
    }
    if r.Ok? {
      monitorRows := r.value;
    }
  }

  /** The body of a monitor's `try`, after the request. */
  method LegacyMonitorRun(suite: SuiteFields, decoded: Decoded<MonitorFields>,
                          policies: Option<seq<AlertPolicy>>, monitorType: string)
    returns (r: Outcome<seq<LegacyRow>>)
    ensures r == LegacyMonitorOutcome(suite, decoded, policies, monitorType)
  {
    match decoded {
      case Error(e) => r := Raised(e);
      case NoMatch => r := Ok([]);
      case Match(f) =>
        var chs := ReadChannels(policies);
        if chs.Raised? {
          r := Raised(chs.error);
        } else {
          r := Ok([LegacyRow(suite, f, chs.value, monitorType)]);
        }
    }
  }

  /** `get_hn_monitors`: the suite loop, aborted by the first suite name that raises. */
  method GetHnMonitors(suites: seq<Suite>) returns (r: Outcome<seq<LegacyRow>>)
    ensures r == LegacyTable(suites)
  {
    var flattenedData: seq<LegacyRow> := [];
    for i := 0 to |suites|
      invariant LegacyTable(suites[..i]) == Ok(flattenedData)
    {
      ghost var next := suites[..i + 1];
      assert next[..|next| - 1] == suites[..i] && next[|next| - 1] == suites[i];
      var parsedSuite := ParseSuiteName(suites[i].name);
      match parsedSuite {
        case Error(e) =>
          assert LegacyTable(next) == Raised(e);
          LegacyRaisePersists(suites, i + 1);
          return Raised(e);
        case NoMatch =>
          assert LegacyTable(next) == Ok(flattenedData + []);
          assert flattenedData + [] == flattenedData;
        case Match(f) =>
          var rows := LegacySuiteRows(suites[i], f);
          assert LegacyTable(next) == Ok(flattenedData + rows);
          flattenedData := flattenedData + rows;
      }
    }
    assert suites[..|suites|] == suites;
    r := Ok(flattenedData);
  }

  // ------------------------------------------------------------ properties

  /** Once a prefix of the suites raises, the whole run raises the same exception. */
  lemma {:induction false} LegacyRaisePersists(suites: seq<Suite>, n: nat)
    requires n <= |suites| && LegacyTable(suites[..n]).Raised?
    ensures LegacyTable(suites) == LegacyTable(suites[..n])
    decreases |suites| - n
  {
    if n < |suites| {
      var longer := suites[..n + 1];
      assert longer[..n] == suites[..n];
      LegacyRaisePersists(suites, n + 1);
    } else {
      assert suites[..n] == suites;
    }
  }

  /** The run raises exactly when some suite name's decoding raises. */
  lemma {:induction false} LegacyRaisesIff(suites: seq<Suite>)
    ensures LegacyTable(suites).Raised? <==> exists i :: 0 <= i < |suites| && ParseSuiteName(suites[i].name).Error?
    decreases |suites|
  {
    if suites != [] {
      var init := suites[..|suites| - 1];
      LegacyRaisesIff(init);
      if exists i :: 0 <= i < |init| && ParseSuiteName(init[i].name).Error? {
        var i :| 0 <= i < |init| && ParseSuiteName(init[i].name).Error?;
        assert suites[i] == init[i];
      }
      if exists i :: 0 <= i < |suites| && ParseSuiteName(suites[i].name).Error? {
        var i :| 0 <= i < |suites| && ParseSuiteName(suites[i].name).Error?;
        if i < |init| {
          assert init[i] == suites[i];
        }
      }
    }
  }

  /** The rows of each suite, in suite order. */
  function LegacySuiteRowGroups(suites: seq<Suite>): seq<seq<LegacyRow>>
    requires forall i :: 0 <= i < |suites| ==> !ParseSuiteName(suites[i].name).Error?
  {
    seq(|suites|, i requires 0 <= i < |suites| => LegacySuiteOutcome(suites[i]).value)
  }

  /**
   * When no suite name raises, the output is every suite's rows in suite
   * order, and a suite whose tag is not recognised contributes none.
   */
  lemma {:induction false} LegacyTableInSuiteOrder(suites: seq<Suite>)
    requires forall i :: 0 <= i < |suites| ==> !ParseSuiteName(suites[i].name).Error?
    ensures LegacyTable(suites) == Ok(Flatten(LegacySuiteRowGroups(suites)))
    decreases |suites|
  {
    if suites != [] {
      var n := |suites| - 1;
      var init := suites[..n];
      assert forall i :: 0 <= i < |init| ==> init[i] == suites[i];
      LegacyTableInSuiteOrder(init);
      var groups := LegacySuiteRowGroups(init);
      NonRaisingSuite(suites[n]);
      var last := LegacySuiteOutcome(suites[n]).value;
      assert LegacyTable(suites) == Ok(Flatten(groups) + last);
      assert LegacySuiteRowGroups(suites) == groups + [last];
      FlattenSnoc(groups, last);
    }
  }

  lemma NonRaisingSuite(s: Suite)
    requires !ParseSuiteName(s.name).Error?
    ensures LegacySuiteOutcome(s).Ok?
  {
  }

  /** A watchlist never yields a row: its decoder raises for every recognised name. */
  lemma LegacyWatchlistsYieldNothing(suite: SuiteFields, w: Option<WatchlistDetail>)
    ensures LegacyTaskRows(suite, WatchlistTask(w)) == []
  {
  }

  /** A monitor yields at most one row, and that row is a custom agent's. */
  lemma LegacyAtMostOneAgentRow(suite: SuiteFields, task: MonitorTask)
    ensures |LegacyTaskRows(suite, task)| <= 1
    ensures forall r :: r in LegacyTaskRows(suite, task) ==> r.monitorType == "Custom Agent" && task.AgentTask?
  {
  }

  /** Every legacy row comes from a custom agent, and a suite has at most one row per custom agent. */
  lemma {:induction false} LegacySuiteRowsBound(s: Suite, suite: SuiteFields)
    ensures |Flatten(LegacySuiteGroups(s, suite))| <= |s.customAgents|
    ensures forall r :: r in Flatten(LegacySuiteGroups(s, suite)) ==> r.monitorType == "Custom Agent"
  {
    var groups := LegacySuiteGroups(s, suite);
    var w := |s.watchlists|;
    assert groups == groups[..w] + groups[w..];
    FlattenAppend(groups[..w], groups[w..]);
    forall i | 0 <= i < |groups| ensures |groups[i]| <= 1 && forall r: LegacyRow :: r in groups[i] ==> r.monitorType == "Custom Agent" {
      LegacyAtMostOneAgentRow(suite, Tasks(s)[i]);
    }
    forall i | 0 <= i < w ensures groups[..w][i] == [] {
      LegacyWatchlistsYieldNothing(suite, s.watchlists[i]);
    }
    FlattenAllEmpty(groups[..w]);
    FlattenBound(groups[w..]);
    FlattenAllAgents(groups);
  }

  lemma {:induction false} FlattenAllEmpty<T>(groups: seq<seq<T>>)
    requires forall i :: 0 <= i < |groups| ==> groups[i] == []
    ensures Flatten(groups) == []
    decreases |groups|
  {
    if groups != [] {
      FlattenAllEmpty(groups[1..]);
    }
  }

  lemma {:induction false} FlattenBound<T>(groups: seq<seq<T>>)
    requires forall i :: 0 <= i < |groups| ==> |groups[i]| <= 1
    ensures |Flatten(groups)| <= |groups|
    decreases |groups|
  {
    if groups != [] {
      FlattenBound(groups[1..]);
    }
  }

  lemma {:induction false} FlattenAllAgents(groups: seq<seq<LegacyRow>>)
    requires forall i :: 0 <= i < |groups| ==> forall r :: r in groups[i] ==> r.monitorType == "Custom Agent"
    ensures forall r :: r in Flatten(groups) ==> r.monitorType == "Custom Agent"
    decreases |groups|
  {
    if groups != [] {
      FlattenAllAgents(groups[1..]);
    }
  }

  /**
   * A decoded custom agent yields exactly one row carrying every channel
   * name of its first policy, in order and with duplicates kept.
   */
  lemma LegacyAgentRow(suite: SuiteFields, a: AgentDetail, ps: seq<AlertPolicy>, cs: seq<ChannelConfig>)
    requires LegacyGrammar.ParseCustomAgentName(a.agentName).Match?
    requires a.alertPolicies == Some(ps) && ps != [] && ps[0].channelsConfigurations == Some(cs)
    requires forall i :: 0 <= i < |cs| ==> cs[i].name.Some?
    ensures var rows := LegacyTaskRows(suite, AgentTask(Some(a)));
      |rows| == 1 && rows[0].monitor == LegacyGrammar.ParseCustomAgentName(a.agentName).fields &&
      |rows[0].alertChannels| == |cs| &&
      forall i :: 0 <= i < |cs| ==> rows[0].alertChannels[i] == cs[i].name.value
  {
  }

  /** An agent whose alert policy list is empty raises at `[0]` and is skipped. */
  lemma EmptyPolicyListSkipsAgent(suite: SuiteFields, a: AgentDetail)
    requires a.alertPolicies == Some([])
    ensures LegacyTaskRows(suite, AgentTask(Some(a))) == []
  {
  }
}
