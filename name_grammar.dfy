/**
 * The naming grammar of the current pipeline: suite, watchlist and custom
 * agent names carry bracket-tagged, space-separated fields. Each decoder
 * works on the token list of `name.split(" ")` by position, with Python's
 * indexing: reading a token past the end raises IndexError.
 *
 * Each decoder has a partner encoder that writes a name in the convention;
 * decoding an encoded name gives back its fields.
 */
module NameGrammar {
  import opened Basics
  import opened Text

  /** What a decoder returns: a tuple, `None`, or an exception it raised. */
  datatype Decoded<+T> = Match(fields: T) | NoMatch | Error(raised: Exception)

  /** `(contract_type, blockchain, protocol, address, symbol, label)` of a suite. */
  datatype SuiteFields = SuiteFields(
    contractType: string, blockchain: string, protocol: string,
    address: string, symbol: string, labelText: string)

  /** `(risk_id, contract_type, blockchain, protocol, address, symbol, label)` of a monitor. */
  datatype MonitorFields = MonitorFields(
    riskId: string, contractType: string, blockchain: string, protocol: string,
    address: string, symbol: string, labelText: string)

  const SuiteTags: set<string> := {"[TOKEN]", "[POOL]", "[VAULT]", "[BRIDGE]"}

  /** Watchlist tags; `[MULTISIG]` and `[POOL]` share one layout. */
  const WatchlistTags: set<string> :=
    {"[PROTOCOL]", "[TOKEN]", "[CONSENSUSLAYER]", "[MULTISIG]", "[POOL]", "[L2]"}

  /** Agent tags with the common six-slot layout; `[TOKEN]` has its own. */
  const AgentTags: set<string> :=
    {"[VAULT]", "[EOA]", "[MULTISIG]", "[POOL]", "[OTHER]", "[ORACLE]", "[BRIDGE]", "[TIMELOCK]"}

  /** `parts[k] if len(parts) > k else ""` */
  function TokenOr(parts: seq<string>, k: nat): string {
    if k < |parts| then parts[k] else ""
  }

  /** `" ".join(parts[k:])`: empty once `k` is at or past the end. */
  function JoinFrom(parts: seq<string>, k: nat): string {
    if k < |parts| then Join(parts[k..]) else ""
  }

  // ---------------------------------------------------------------- suites

  /** `parse_suit_name` on the token list. */
  function DecodeSuite(parts: seq<string>): (r: Decoded<SuiteFields>)
    ensures r.NoMatch? <==> |parts| >= 1 && parts[0] !in SuiteTags
    ensures r.Error? <==> |parts| < 4 && (|parts| == 0 || parts[0] in SuiteTags)
    ensures r.Error? ==> r.raised == IndexError
    ensures r.Match? ==> |parts| >= 4 && r.fields.contractType == parts[0] && r.fields.blockchain == parts[1]
  {
    if |parts| == 0 then Error(IndexError)
    else if parts[0] !in SuiteTags then NoMatch
    else if |parts| < 4 then Error(IndexError)
    else if parts[0] == "[TOKEN]" then
      Match(SuiteFields(parts[0], parts[1], "", parts[2], parts[3], JoinFrom(parts, 4)))
    else
      Match(SuiteFields(parts[0], parts[1], parts[2], parts[3], "", JoinFrom(parts, 4)))
  }

  function ParseSuiteName(name: string): Decoded<SuiteFields> {
    DecodeSuite(Split(name))
  }

  /** An example token-suite name: a token suite leaves the protocol slot empty. */
  lemma TokenSuiteExample()
    ensures ParseSuiteName("[TOKEN] eth 0xAA SYM some label") ==
      Match(SuiteFields("[TOKEN]", "eth", "", "0xAA", "SYM", "some label"))
  {
    var f := SuiteFields("[TOKEN]", "eth", "", "0xAA", "SYM", "some label");
    TokenSuiteExampleName();
    SuiteNameRoundTrip(f);
  }

  lemma TokenSuiteExampleName()
    ensures var f := SuiteFields("[TOKEN]", "eth", "", "0xAA", "SYM", "some label");
      WellFormedSuite(f) && SuiteName(f) == "[TOKEN] eth 0xAA SYM some label"
  {
    TokenSuiteExampleTokens();
    var fixed := "[TOKEN] eth 0xAA SYM";
    assert fixed + " " + "some label" == "[TOKEN] eth 0xAA SYM some label";
  }

  lemma TokenSuiteExampleTokens()
    ensures Join(["[TOKEN]", "eth", "0xAA", "SYM"]) == "[TOKEN] eth 0xAA SYM"
  {
    var tail := ["eth", "0xAA", "SYM"];
    assert ["[TOKEN]", "eth", "0xAA", "SYM"][1..] == tail;
    assert tail[1..] == ["0xAA", "SYM"];
    assert ["0xAA", "SYM"][1..] == ["SYM"];
    assert Join(tail) == "eth 0xAA SYM";
  }

  /** Fields that a suite name can carry: single-word slots, the unused slot empty. */
  predicate WellFormedSuite(f: SuiteFields) {
    && f.contractType in SuiteTags
    && AreWords([f.contractType, f.blockchain, f.protocol, f.address, f.symbol])
    && (if f.contractType == "[TOKEN]" then f.protocol == "" else f.symbol == "")
  }

  /** Appends a free-text label after the fixed tokens, omitting it when empty. */
  function WithLabel(fixed: seq<string>, labelText: string): string {
    if labelText == "" then Join(fixed) else Join(fixed) + " " + labelText
  }

  /** The naming convention: `[TOKEN] chain address SYMBOL label` or `[POOL] chain protocol address label`. */
  function SuiteName(f: SuiteFields): string {
    if f.contractType == "[TOKEN]" then
      WithLabel([f.contractType, f.blockchain, f.address, f.symbol], f.labelText)
    else
      WithLabel([f.contractType, f.blockchain, f.protocol, f.address], f.labelText)
  }

  /** Splitting a name written by `WithLabel` recovers the fixed tokens and the label. */
  lemma WithLabelSplit(fixed: seq<string>, labelText: string)
    requires |fixed| >= 1 && AreWords(fixed)
    ensures var parts := Split(WithLabel(fixed, labelText));
      |parts| >= |fixed| && parts[..|fixed|] == fixed && JoinFrom(parts, |fixed|) == labelText
  {
    if labelText == "" {
      SplitJoin(fixed);
    } else {
      WordsThenLabel(fixed, labelText);
    }
  }

  /** Decoding an encoded suite name gives back its fields. */
  lemma SuiteNameRoundTrip(f: SuiteFields)
    requires WellFormedSuite(f)
    ensures ParseSuiteName(SuiteName(f)) == Match(f)
  {
    if f.contractType == "[TOKEN]" {
      WithLabelSplit([f.contractType, f.blockchain, f.address, f.symbol], f.labelText);
    } else {
      WithLabelSplit([f.contractType, f.blockchain, f.protocol, f.address], f.labelText);
    }
  }

  /** A recognised tag with fewer than four tokens raises instead of returning `None`. */
  lemma ShortSuiteNameRaises(name: string)
    requires ' ' !in name && name in SuiteTags
    ensures ParseSuiteName(name) == Error(IndexError)
  {
    SplitWord(name);
  }

  // ------------------------------------------------------------ watchlists

  /** `parse_watchlist_name` on the token list: the tag is the second token. */
  function DecodeWatchlist(parts: seq<string>): (r: Decoded<MonitorFields>)
    ensures r.NoMatch? <==> |parts| >= 2 && parts[1] !in WatchlistTags
    ensures r.Error? ==> r.raised == IndexError
    ensures r.Match? ==> |parts| >= 2 && r.fields.riskId == parts[0] && r.fields.contractType == parts[1] && r.fields.symbol == ""
  {
    if |parts| < 2 then Error(IndexError)
    else
      var riskId, tag := parts[0], parts[1];
      if tag == "[PROTOCOL]" then
        if |parts| < 4 then Error(IndexError)
        else Match(MonitorFields(riskId, tag, parts[2], parts[3], "", "", parts[3]))
      else if tag == "[TOKEN]" then
        if |parts| < 4 then Error(IndexError)
        else Match(MonitorFields(riskId, tag, parts[2], "", parts[3], "", JoinFrom(parts, 4)))
      else if tag == "[CONSENSUSLAYER]" then
        if |parts| < 3 then Error(IndexError)
        else Match(MonitorFields(riskId, tag, parts[2], "", "", "", JoinFrom(parts, 3)))
      else if tag == "[MULTISIG]" || tag == "[POOL]" then
        if |parts| < 5 then Error(IndexError)
        else Match(MonitorFields(riskId, tag, parts[2], parts[3], parts[4], "", JoinFrom(parts, 5)))
      else if tag == "[L2]" then
        Match(MonitorFields(riskId, tag, "", "", "", "", JoinFrom(parts, 2)))
      else NoMatch
  }

  function ParseWatchlistName(name: string): Decoded<MonitorFields> {
    DecodeWatchlist(Split(name))
  }

  /** How many tokens each watchlist layout reads by index. */
  function WatchlistArity(tag: string): nat {
    if tag == "[PROTOCOL]" || tag == "[TOKEN]" then 4
    else if tag == "[CONSENSUSLAYER]" then 3
    else if tag == "[MULTISIG]" || tag == "[POOL]" then 5
    else 2
  }

  /** A recognised watchlist tag raises exactly when the name is shorter than its layout. */
  lemma WatchlistErrorIff(parts: seq<string>)
    requires |parts| >= 2 && parts[1] in WatchlistTags
    ensures DecodeWatchlist(parts).Error? <==> |parts| < WatchlistArity(parts[1])
  {
  }

  /** Fields a watchlist name can carry, per tag. */
  predicate WellFormedWatchlist(f: MonitorFields) {
    && f.contractType in WatchlistTags
    && AreWords([f.riskId, f.contractType, f.blockchain, f.protocol, f.address])
    && f.symbol == ""
    && match f.contractType
       case "[PROTOCOL]" => f.address == "" && f.labelText == f.protocol
       case "[TOKEN]" => f.protocol == ""
       case "[CONSENSUSLAYER]" => f.protocol == "" && f.address == ""
       case "[L2]" => f.blockchain == "" && f.protocol == "" && f.address == ""
       case _ => true
  }

  /** The watchlist naming convention, one layout per tag. */
  function WatchlistName(f: MonitorFields): string {
    match f.contractType
    case "[PROTOCOL]" => Join([f.riskId, f.contractType, f.blockchain, f.protocol])
    case "[TOKEN]" => WithLabel([f.riskId, f.contractType, f.blockchain, f.address], f.labelText)
    case "[CONSENSUSLAYER]" => WithLabel([f.riskId, f.contractType, f.blockchain], f.labelText)
    case "[L2]" => WithLabel([f.riskId, f.contractType], f.labelText)
    case _ => WithLabel([f.riskId, f.contractType, f.blockchain, f.protocol, f.address], f.labelText)
  }

  /** Decoding an encoded watchlist name gives back its fields. */
  lemma WatchlistNameRoundTrip(f: MonitorFields)
    requires WellFormedWatchlist(f)
    ensures ParseWatchlistName(WatchlistName(f)) == Match(f)
  {
    match f.contractType
    case "[PROTOCOL]" =>
      SplitJoin([f.riskId, f.contractType, f.blockchain, f.protocol]);
    case "[TOKEN]" =>
      WithLabelSplit([f.riskId, f.contractType, f.blockchain, f.address], f.labelText);
    case "[CONSENSUSLAYER]" =>
      WithLabelSplit([f.riskId, f.contractType, f.blockchain], f.labelText);
    case "[L2]" =>
      WithLabelSplit([f.riskId, f.contractType], f.labelText);
    case _ =>
      WithLabelSplit([f.riskId, f.contractType, f.blockchain, f.protocol, f.address], f.labelText);
  }

  // --------------------------------------------------------- custom agents

  /**
   * `parse_custom_agent_name` on the token list. It never indexes past the
   * end; tags are compared after upper-casing, but the returned contract
   * type keeps the name's own letter case.
   */
  function DecodeCustomAgent(parts: seq<string>): (r: Decoded<MonitorFields>)
    ensures !r.Error?
    ensures r.NoMatch? <==>
      |parts| == 0 || (2 <= |parts| <= 3 && Upper(parts[1]) !in AgentTags && Upper(parts[1]) != "[TOKEN]")
    ensures r.Match? ==> |parts| >= 1 && r.fields.riskId == parts[0]
  {
    if |parts| == 0 then NoMatch
    else if |parts| == 1 then Match(MonitorFields(parts[0], "[OTHER]", "", "", "", "", ""))
    else
      var riskId, tag := parts[0], parts[1];
      if Upper(tag) in AgentTags then
        Match(MonitorFields(riskId, tag, TokenOr(parts, 2), TokenOr(parts, 3), TokenOr(parts, 4),
                            TokenOr(parts, 5), JoinFrom(parts, 6)))
      else if Upper(tag) == "[TOKEN]" then
        Match(MonitorFields(riskId, tag, TokenOr(parts, 2), "", TokenOr(parts, 3),
                            TokenOr(parts, 4), JoinFrom(parts, 5)))
      else if |parts| >= 4 then
        Match(MonitorFields(riskId, "[OTHER]", parts[1], parts[2], parts[3],
                            TokenOr(parts, 4), JoinFrom(parts, 5)))
      else NoMatch
  }

  function ParseCustomAgentName(name: string): Decoded<MonitorFields> {
    DecodeCustomAgent(Split(name))
  }

  /** A name without spaces, including the empty name, is a bare risk id of type `[OTHER]`. */
  lemma OneWordAgentName(name: string)
    requires IsWord(name)
    ensures ParseCustomAgentName(name) == Match(MonitorFields(name, "[OTHER]", "", "", "", "", ""))
  {
    SplitWord(name);
  }

  /** Tag matching ignores letter case; the decoded contract type keeps the original spelling. */
  lemma AgentTagCaseInsensitive(parts: seq<string>, upperTag: string)
    requires |parts| >= 2 && Upper(parts[1]) == upperTag
    requires upperTag in AgentTags || upperTag == "[TOKEN]"
    ensures DecodeCustomAgent(parts).Match? && DecodeCustomAgent(parts).fields.contractType == parts[1]
    ensures DecodeCustomAgent(parts[1 := upperTag]) ==
      Match(DecodeCustomAgent(parts).fields.(contractType := upperTag))
  {
    UpperIdempotent(parts[1]);
  }

  /**
   * An unknown tag in a name of four or more tokens is read as an `[OTHER]`
   * name whose tag was left out: every slot after the risk id shifts left by one.
   */
  lemma UnknownAgentTagShifts(parts: seq<string>)
    requires |parts| >= 4 && Upper(parts[1]) !in AgentTags && Upper(parts[1]) != "[TOKEN]"
    ensures DecodeCustomAgent(parts) == DecodeCustomAgent([parts[0], "[OTHER]"] + parts[1..])
  {
    var tagged := [parts[0], "[OTHER]"] + parts[1..];
    assert Upper("[OTHER]") == "[OTHER]";
    assert tagged[1] == "[OTHER]" && tagged[2..5] == parts[1..4];
    assert TokenOr(tagged, 5) == TokenOr(parts, 4);
    if |parts| > 5 {
      assert tagged[6..] == parts[5..];
    }
    assert JoinFrom(tagged, 6) == JoinFrom(parts, 5);
  }

  /** The six-slot agent naming convention; every slot but the label may be empty. */
  function AgentName(f: MonitorFields): string {
    if Upper(f.contractType) == "[TOKEN]" then
      WithLabel([f.riskId, f.contractType, f.blockchain, f.address, f.symbol], f.labelText)
    else
      WithLabel([f.riskId, f.contractType, f.blockchain, f.protocol, f.address, f.symbol], f.labelText)
  }

  predicate WellFormedAgent(f: MonitorFields) {
    && (Upper(f.contractType) in AgentTags || Upper(f.contractType) == "[TOKEN]")
    && AreWords([f.riskId, f.contractType, f.blockchain, f.protocol, f.address, f.symbol])
    && (Upper(f.contractType) == "[TOKEN]" ==> f.protocol == "")
  }

  /** Decoding an encoded agent name gives back its fields, whatever the tag's letter case. */
  lemma AgentNameRoundTrip(f: MonitorFields)
    requires WellFormedAgent(f)
    ensures ParseCustomAgentName(AgentName(f)) == Match(f)
  {
    var fixed := if Upper(f.contractType) == "[TOKEN]" then [f.riskId, f.contractType, f.blockchain, f.address, f.symbol]
                 else [f.riskId, f.contractType, f.blockchain, f.protocol, f.address, f.symbol];
    assert AgentName(f) == WithLabel(fixed, f.labelText);
    WithLabelSplit(fixed, f.labelText);
    var parts := Split(AgentName(f));
    assert forall i :: 0 <= i < |fixed| ==> parts[i] == parts[..|fixed|][i] == fixed[i];
    assert parts[0] == f.riskId && parts[1] == f.contractType;
  }
}
