# Hypernative monitoring inventory, in Dafny

This project models the ingestion pipeline of the Hypernative alerts
dashboard. The pipeline reads security suites, the watchlists and custom
agents inside them, and the alert policies of each monitor. It turns them
into a flat table with one row per (monitor, alert channel), and tags each
row with the client that owns the channel.

There are two versions of the pipeline, and both are modelled:

- **Current** (`src/performance_optimizer.py`), in modules `NameGrammar`, `Channels`, `Rows` and `Optimizer`. It:
  - decodes suite, watchlist and agent names by position;
  - de-duplicates channels;
  - emits one row per channel, or a `"None"` placeholder row;
  - caches the table for 300 seconds;
  - processes suites in batches of five.
- **Legacy** (`src/getHN.py`), in modules `LegacyGrammar` and `Legacy`. It:
  - matches tags case-sensitively;
  - reads a one-token agent label;
  - reads only the first alert policy of a monitor;
  - emits one row per monitor.

  Its watchlist decoder returns a name that is never bound. The legacy suite decoder has exactly the same text as the current one, so the model reuses `NameGrammar.DecodeSuite` for it.

Supporting modules:

- `Basics`: `Option` and the Python exceptions as values (`Outcome`), plus `Flatten` and its permutation lemmas.
- `Text`: Python's `str.split(" ")`, `" ".join` and the part of `str.upper` that tag matching depends on.

A name decoder returns one of three results: `Match(fields)`, `NoMatch` (the Python `None`) or `Error(exception)`. The third one matters because callers treat a raised exception differently from `None`.

Fetched payloads are inputs to the model. A detail payload is `None` when its request, or the decoding of its JSON, raised. Methods carry the loops of the source. Each method is proved equal to a specification function, and the lemmas state the properties of those functions.

## Model

| member | source | states |
|---|---|---|
| Text.Split | src/performance_optimizer.py:275 | `str.split(" ")` always yields at least one token |
| Text.JoinSplit | src/performance_optimizer.py:284 | joining the tokens of a split with single spaces gives back the original name |
| Text.SplitJoin | src/performance_optimizer.py:289 | splitting the join of space-free tokens gives back those tokens |
| Text.SplitAtSpace | src/performance_optimizer.py:275 | splitting `a + " " + b` is splitting `a` then `b` |
| Text.SplitGivesWords | src/performance_optimizer.py:275 | no token of a split contains a space |
| Text.SplitWord | src/performance_optimizer.py:326-330 | a space-free name splits into exactly itself |
| Text.WordsThenLabel | src/performance_optimizer.py:284 | after fixed space-free tokens, the joined remainder is exactly the free-text label |
| Text.UpperIdempotent | src/performance_optimizer.py:336 | upper-casing twice is upper-casing once |
| Text.UpperOfUpperCase | src/performance_optimizer.py:336-338 | a tag with no lower-case letter is unchanged by upper-casing |
| NameGrammar.DecodeSuite | src/performance_optimizer.py:274-290 | `None` exactly when `parts[0]` is not one of the four suite tags; IndexError exactly when a known tag has fewer than 4 tokens; otherwise tag and chain are `parts[0]`, `parts[1]` |
| NameGrammar.TokenSuiteExample | src/performance_optimizer.py:275-290 | the example token-suite name `[TOKEN] eth 0xAA SYM some label` decodes to tag `[TOKEN]`, chain `eth`, address `0xAA`, symbol `SYM`, label `some label` and an empty protocol |
| NameGrammar.SuiteNameRoundTrip | src/performance_optimizer.py:274-290 | every well-formed suite record, printed as a name, decodes back to itself |
| NameGrammar.WithLabelSplit | src/performance_optimizer.py:284 | a name built from fixed tokens and a label splits into those tokens followed by the label's tokens |
| NameGrammar.ShortSuiteNameRaises | src/performance_optimizer.py:280 | a bare suite tag raises IndexError instead of returning `None` |
| NameGrammar.DecodeWatchlist | src/performance_optimizer.py:292-323 | `None` exactly for an unknown tag at `parts[1]`; errors are IndexError only; a match keeps risk id and tag and has an empty symbol |
| NameGrammar.WatchlistErrorIff | src/performance_optimizer.py:296-320 | a known watchlist tag raises exactly when the name is shorter than the tag's arity (4, 4, 3, 5, 5, 2) |
| NameGrammar.WatchlistNameRoundTrip | src/performance_optimizer.py:292-323 | every well-formed watchlist record of each of the six layouts, printed as a name, decodes back to itself |
| NameGrammar.DecodeCustomAgent | src/performance_optimizer.py:325-360 | never raises; `None` exactly for the empty token list or for 2–3 tokens with an unknown tag; a match keeps `parts[0]` as risk id |
| NameGrammar.OneWordAgentName | src/performance_optimizer.py:328-330 | a one-word name, including `""`, gives (word, "[OTHER]", "", "", "", "", "") |
| NameGrammar.AgentTagCaseInsensitive | src/performance_optimizer.py:336-349 | a known tag in any letter case decodes like its upper-case spelling, and the result keeps the original spelling |
| NameGrammar.UnknownAgentTagShifts | src/performance_optimizer.py:350-357 | a name of at least 4 tokens with an unknown tag decodes exactly like the same name with `[OTHER]` inserted after the risk id, so the unknown tag is read as the blockchain and every later token moves one slot on |
| NameGrammar.AgentNameRoundTrip | src/performance_optimizer.py:325-360 | every well-formed agent record, printed as a name, decodes back to itself |
| LegacyGrammar.DecodeWatchlist | src/getHN.py:37-73 | never matches: unknown tag gives `None`, and every known tag raises (IndexError when short, NameError otherwise) |
| LegacyGrammar.LegacyWatchlistRaisesWhereCurrentMatches | src/getHN.py:73 | wherever the current decoder matches, the legacy one raises NameError; elsewhere the two agree |
| LegacyGrammar.L2WatchlistRaisesNameError | src/getHN.py:65-73 | the well-formed tokens `R1 [L2] arbitrum rollup` raise NameError, though the current decoder matches them |
| LegacyGrammar.DecodeCustomAgent | src/getHN.py:75-94 | raises IndexError exactly for fewer than 2 tokens; matches exactly for a tag spelled as one of the nine known tags; keeps risk id and tag |
| LegacyGrammar.LegacyAgentLabelIsFirstWord | src/getHN.py:85-91 | where the legacy agent decoder matches, the current one matches with the same fields, and the legacy label is the first word of the current label |
| LegacyGrammar.LowerCaseAgentTag | src/getHN.py:79 | a lower-case tag `[vault]` is rejected by the legacy decoder and accepted by the current one |
| LegacyGrammar.OneWordAgentNameRaises | src/getHN.py:78 | a one-word agent name raises IndexError in the legacy decoder |
| Channels.ExtractChannels | src/performance_optimizer.py:362-370 | the names from every configuration of every policy, falsy names dropped, first occurrences kept in order; no duplicates, no empty names |
| Channels.ConfigNamesNonEmpty | src/performance_optimizer.py:367-369 | no extracted name is empty |
| Channels.ChannelNamesNonEmpty | src/performance_optimizer.py:365-369 | no name extracted from a list of policies is empty |
| Channels.Dedup | src/performance_optimizer.py:370 | reference definition of `list(dict.fromkeys(...))`: an element is kept when it is not already among the kept ones; the `Dedup…` lemmas state its properties |
| Channels.DedupSameElements | src/performance_optimizer.py:370 | de-duplication keeps exactly the same set of names |
| Channels.DedupNoDuplicates | src/performance_optimizer.py:370 | the de-duplicated list has no repeated name |
| Channels.DedupKeepsFirstOccurrenceOrder | src/performance_optimizer.py:370 | kept names appear in the order of their first occurrence in the input |
| Channels.DedupOfDistinct | src/performance_optimizer.py:370 | a list without repeats is unchanged |
| Channels.DedupIdempotent | src/performance_optimizer.py:370 | de-duplicating twice is de-duplicating once |
| Channels.DaoMapKeys | src/performance_optimizer.py:266-270 | a channel is a key of the directory map exactly when some entry with that name has a dao that is neither empty nor "None" |
| Channels.DaoMapLastOwner | src/performance_optimizer.py:266-270 | when several entries own a name, the map holds the dao of the last of them |
| Channels.ClientDao | src/performance_optimizer.py:264-271 | reference definition of `get_client_dao`: the sentinel for `"None"`, otherwise the dao the owner map holds, or the sentinel; `ClientDaoLastEntryWins` and `ClientDaoNoneIff` state its properties |
| Channels.ClientDaoLastEntryWins | src/performance_optimizer.py:264-271 | a real channel resolves to the dao of its last owning entry |
| Channels.ClientDaoNoneIff | src/performance_optimizer.py:264-271 | the result is "None" exactly when the channel is "None" or has no owning entry; it is never empty, and otherwise it is some owner's dao |
| Rows.BuildRows | src/performance_optimizer.py:177-208 | one row per channel of `channels or ["None"]`, in order, each with its client |
| Rows.FetchWatchlistData | src/performance_optimizer.py:165-208 | a failed fetch raises; `None` from the decoder gives no rows; otherwise the channel rows of the watchlist record |
| Rows.FetchAgentData | src/performance_optimizer.py:210-262 | the same for agents: type defaults to "Custom Agent", description is the rule string or the agent name, link is empty for a falsy id |
| Rows.FetchMonitorData | src/performance_optimizer.py:153-163 | an exception inside a monitor task becomes an empty list |
| Rows.SubmitTasks | src/performance_optimizer.py:124-132 | one task per watchlist, then one per custom agent, in order |
| Rows.CollectRows | src/performance_optimizer.py:135-151 | the suite's rows are the concatenation of every task's rows |
| Rows.FetchSuitData | src/performance_optimizer.py:113-151 | an undecodable suite name gives no rows; a raising one propagates; otherwise every monitor's rows |
| Rows.MonitorRowsPerChannel | src/performance_optimizer.py:176-207 | a decoded monitor gives max(1, number of distinct channel names) rows; all rows share the monitor columns and have pairwise different channels; every name appears; no names gives one ("None", "None") row |
| Rows.RowClientIsOwner | src/performance_optimizer.py:184-206 | every row's client is "None" or the dao of the channel's last owning entry, and never empty |
| Rows.UndecodableWatchlistNoRows | src/performance_optimizer.py:172-174 | a watchlist whose name does not decode contributes no rows |
| Rows.FailedWatchlistIsolated | src/performance_optimizer.py:142-163 | replacing one watchlist's detail by a failed request removes exactly that watchlist's rows and keeps every other row of the suite |
| Rows.FailedAgentIsolated | src/performance_optimizer.py:142-163 | replacing one custom agent's detail by a failed request removes exactly that agent's rows and keeps every other row of the suite |
| Rows.CompletionOrderIrrelevant | src/performance_optimizer.py:142-146 | any completion order of the monitor tasks yields the same multiset of rows |
| Rows.OneWatchlistTwoChannels | src/performance_optimizer.py:176-207 | one decodable watchlist with two distinct channels yields exactly two rows, identical except for channel and client |
| Optimizer.PerformanceOptimizer.constructor | src/performance_optimizer.py:25-33 | the optimizer starts from whatever rows and timestamp are already in the cache |
| Optimizer.PerformanceOptimizer.IsCacheValid | src/performance_optimizer.py:53-63 | reference definition: valid exactly when a parsable timestamp is stored and the clock is less than 300 s past it; `LoadFromCache`, `SaveToCache` and `ExpiryIsPermanent` state its consequences |
| Optimizer.PerformanceOptimizer.LoadFromCache | src/performance_optimizer.py:65-80 | returns the stored rows exactly when the timestamp exists, is less than 300 s old, and rows are stored; otherwise `None` |
| Optimizer.PerformanceOptimizer.SaveToCache | src/performance_optimizer.py:82-98 | stores the rows and the current time; the cache is then valid for the next 300 s |
| Optimizer.PerformanceOptimizer.GetHnMonitorsOptimized | src/performance_optimizer.py:372-439 | a valid cache is returned unchanged unless `force_refresh`; otherwise the fresh table of the limited suite list (empty when the suite list cannot be fetched), saved only when non-empty |
| Optimizer.ProcessInBatches | src/performance_optimizer.py:400-425 | processing the suites in batches of five gives every suite's rows, in suite order, a raising suite contributing none |
| Optimizer.RunBatch | src/performance_optimizer.py:405-417 | one batch's `as_completed` loop adds every suite's rows of the batch, in batch order, a raising suite adding none |
| Optimizer.ExpiryIsPermanent | src/performance_optimizer.py:53-61 | once the cache is stale it stays stale at every later time |
| Optimizer.LimitIsPrefix | src/performance_optimizer.py:396-397 | the limit keeps the first `limit` suites, or all of them when it is absent, zero or negative |
| Optimizer.TableAppend | src/performance_optimizer.py:402-417 | the table of two suite lists is the concatenation of their tables |
| Optimizer.LimitedTableIsPrefix | src/performance_optimizer.py:396-397 | a limited run yields a prefix of the rows of the unlimited run |
| Optimizer.UndecodableSuiteContributesNothing | src/performance_optimizer.py:113-118 | a suite whose name does not decode, or whose decoding raises, contributes no rows |
| Optimizer.CompletionOrderIrrelevant | src/performance_optimizer.py:405-415 | any completion order of the suite tasks yields the same multiset of rows |
| Optimizer.NestedCompletionOrderIrrelevant | src/performance_optimizer.py:400-417 | when each suite's rows come back in any order of its monitor tasks and the suites complete in any order, the table holds the same multiset of rows |
| Optimizer.BatchesCover | src/performance_optimizer.py:401-403 | the batches of `range(0, len(suits), 5)` cover every suite exactly once, in order |
| Legacy.RemoveAlertPolicies | src/getHN.py:13-16 | deletes the `alertPolicies` key in place and returns the same object |
| Legacy.RemovalKeepsOtherKeys | src/getHN.py:13-16 | after removal the key is absent, and every other key keeps its value |
| Legacy.RemovalIdempotent | src/getHN.py:13-16 | removing twice is removing once; an object without the key is unchanged |
| Legacy.ConfigNamesStrict | src/getHN.py:117-119 | every configuration's name in order, duplicates kept; KeyError exactly when a name is missing |
| Legacy.ReadChannels | src/getHN.py:116-119 | only the first policy is read; a missing or empty policy list raises |
| Legacy.LegacyMonitor | src/getHN.py:108-196 | a monitor whose request or decoding raises is skipped; otherwise its rows, watchlist or agent alike |
| Legacy.LegacyMonitorRun | src/getHN.py:112-146 | an undecoded monitor gives nothing; a decoded one gives one row with the whole channel list |
| Legacy.LegacySuiteRows | src/getHN.py:107-196 | a suite's rows: its watchlists' rows, then its agents' rows; a raising monitor is skipped |
| Legacy.GetHnMonitors | src/getHN.py:96-200 | the suite loop, aborted by the first suite name that raises |
| Legacy.LegacyRaisePersists | src/getHN.py:103 | once a prefix of the suites raises, the whole run raises the same exception |
| Legacy.LegacyRaisesIff | src/getHN.py:103 | the run raises exactly when some suite name's decoding raises |
| Legacy.LegacyTableInSuiteOrder | src/getHN.py:100-105 | with no raising suite, the output is every suite's rows in suite order, and an unrecognised suite contributes none |
| Legacy.LegacyWatchlistsYieldNothing | src/getHN.py:113-151 | no watchlist ever yields a row |
| Legacy.LegacyAtMostOneAgentRow | src/getHN.py:130-191 | a monitor yields at most one row, and only a custom agent does |
| Legacy.LegacySuiteRowsBound | src/getHN.py:153-196 | every row of a suite is a custom-agent row, and there are at most as many rows as custom agents |
| Legacy.LegacyAgentRow | src/getHN.py:153-191 | a decoded agent yields exactly one row carrying every channel name of its first policy, in order, duplicates kept |
| Legacy.EmptyPolicyListSkipsAgent | src/getHN.py:161-196 | an agent with an empty policy list raises at `[0]` and is skipped |

## Left out

- HTTP requests, the retry session and timeouts are not modelled. A fetched payload is an input value, and a failed request or JSON decoding is `None` (`RequestError`).
- The thread pools and `as_completed` are not modelled. Tasks run in submission order, and `Rows.CompletionOrderIrrelevant`, `Optimizer.CompletionOrderIrrelevant` and `Optimizer.NestedCompletionOrderIrrelevant` show that any other order, at either level or both, gives the same multiset of rows.
- The `threading.Lock` around cache access is not modelled, because the model is sequential.
- `time.sleep`, elapsed-time reporting and logging do nothing observable and are not modelled.
- `datetime.now()` becomes two integer clock arguments in microseconds: `now` when the run starts and `savedAt` when the cache is written.
- The cache files, their JSON encoding and the pandas `DataFrame` become the in-memory fields `storedRows` and `storedAt`. Reading them back is taken to be exact.
- A failed cache write is swallowed and logged by the source, and is not modelled: `SaveToCache` always succeeds.
- The `row_count` and `cache_version` metadata fields are never read, and are not modelled.
- The channel directory imported from `src/channels.py` is not part of this model; it is a parameter. That file never defines the imported `channels` name.
- `src/login.py`, the Streamlit UI in `main.py` and the diagnostic scripts are not part of this model.
- Legacy.GetHnMonitors: the suite list is a parameter. The source fetches it once at import time.
- Legacy.GetHnMonitors: a suite without a `name` key is not modelled. It raises KeyError while printing in the source.
- Legacy.GetHnMonitors: a watchlist or custom-agent reference without an `id` key is not modelled. In the source the `except` handler reads the id again, so the KeyError escapes and ends the whole run; `Legacy.LegacyRaisesIff` holds only for suites whose `watchlists` and `customAgents` are lists and whose references all carry an id.
- Legacy.GetHnMonitors: a JSON `null` for a suite's `watchlists` or `customAgents` is modelled as an empty list. In the source the monitor loops are outside any `try`, so iterating `None` raises TypeError and ends the whole legacy run, although no suite name raised.
- `print` output is not modelled.
- Legacy.ConfigNamesStrict: a JSON `null` channel name and a missing one are both modelled as KeyError. With a `null`, the source would append `None` to the list instead.
- Legacy.ReadChannels: a `null` policy list and a missing one both raise, as different exceptions in the source (TypeError and KeyError). Both are modelled as KeyError, and the monitor is skipped either way.
- Rows.FetchAgentData: an explicit JSON `null` for `agentType`, or for `rule.ruleString`, is modelled as if the key were missing. The source would then put `None` in the row.
- Rows.FetchAgentData: a JSON `null` `agentName` is not modelled; the name is a string. In the source `None.split` raises, so that agent gives no rows, whereas a missing name gives `""`, which decodes as a one-word `[OTHER]` agent with rows.
- Channels.ExtractChannels: a JSON `null` for `channelsConfigurations` is modelled like a missing key, as no configurations. The source raises TypeError iterating `None`, so that monitor contributes no rows, while the model gives it the `("None", "None")` placeholder row.
- Rows.FetchWatchlistData: a JSON `null` description is not modelled. The description is a string, where the source would put `None` in the row.
- Optimizer.PerformanceOptimizer.GetHnMonitorsOptimized: a JSON `null` entry in the suite list is not modelled; every suite is a record. In the source `fetch_suit_data` raises on it, the batch loop's own `except` handler raises again on `suit.get`, and the outer handler returns an empty table: every row already collected is lost and nothing is saved, which `Optimizer.UndecodableSuiteContributesNothing` does not describe.
- Rows.FetchSuitData: a JSON `null` for `watchlists` or `customAgents` is modelled as an empty list. The source raises TypeError iterating `None`, and the batch loop then drops the whole suite.
- Rows.FetchWatchlistData: a numeric id is not modelled. Ids are strings, so an id of `0`, which Python treats as falsy, does not occur.
- `str.upper` is modelled only for ASCII letters and the two non-ASCII letters whose upper case is a single ASCII letter (U+0131 and U+017F). The other characters whose upper case is all-ASCII (such as ß and the ligatures) never produce the text of a tag, so tag recognition is exact.
- The pipeline has no cache-invalidation method and no first-match channel resolution over a list. The code resolves one channel at a time, with the last directory entry winning, and the model follows the code.

## Findings

| source | as written | input that shows it | evidently intended | confidence | as-written member | corrected member |
|---|---|---|---|---|---|---|
| src/getHN.py:73 | the return tuple reads `symbol`, which neither `parse_watchlist_name` nor the module binds, so every recognised watchlist name raises NameError and the legacy table never holds a watchlist row | the name `R1 [L2] arbitrum rollup` | return `""` as the watchlist symbol, as the current decoder does at src/performance_optimizer.py:323 | not executed | LegacyGrammar.L2WatchlistRaisesNameError | NameGrammar.WatchlistNameRoundTrip |
