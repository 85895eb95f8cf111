/**
 * The naming grammar of the first pipeline version. Its suite decoder is the
 * same text as the current one (`NameGrammar.DecodeSuite`). Its watchlist
 * decoder returns a name that is bound nowhere, and its agent decoder is
 * case-sensitive, reads the label as one token and indexes the tag without a
 * length check.
 */
module LegacyGrammar {
  import opened Basics
  import opened Text
  import opened NameGrammar

  /**
   * `parse_watchlist_name` as written: the per-tag indexing is the current
   * decoder's, but the final `return` reads `symbol`, which neither the
   * function nor the module binds, so every recognised name raises.
   */
  function DecodeWatchlist(parts: seq<string>): (r: Decoded<MonitorFields>)
    ensures !r.Match?
    ensures r.NoMatch? <==> |parts| >= 2 && parts[1] !in WatchlistTags
  {
    if |parts| < 2 then Error(IndexError)
    else
      var tag := parts[1];
      if tag == "[PROTOCOL]" || tag == "[TOKEN]" then
        if |parts| < 4 then Error(IndexError) else Error(NameError)
      else if tag == "[CONSENSUSLAYER]" then
        if |parts| < 3 then Error(IndexError) else Error(NameError)
      else if tag == "[MULTISIG]" || tag == "[POOL]" then
        if |parts| < 5 then Error(IndexError) else Error(NameError)
      else if tag == "[L2]" then Error(NameError)
      else NoMatch
  }

  function ParseWatchlistName(name: string): Decoded<MonitorFields> {
    DecodeWatchlist(Split(name))
  }

  /**
   * Wherever the current decoder finds a watchlist, the legacy one raises
   * NameError; elsewhere the two agree. The current decoder is the
   * correction: it returns `""` for the symbol.
   */
  lemma LegacyWatchlistRaisesWhereCurrentMatches(parts: seq<string>)
    ensures NameGrammar.DecodeWatchlist(parts).Match? ==> DecodeWatchlist(parts) == Error(NameError)
    ensures !NameGrammar.DecodeWatchlist(parts).Match? ==> DecodeWatchlist(parts) == NameGrammar.DecodeWatchlist(parts)
  {
  }

  /** The input that exhibits the unbound name: the tokens of the well-formed name `R1 [L2] arbitrum rollup`. */
  lemma L2WatchlistRaisesNameError()
    ensures DecodeWatchlist(["R1", "[L2]", "arbitrum", "rollup"]) == Error(NameError)
    ensures NameGrammar.DecodeWatchlist(["R1", "[L2]", "arbitrum", "rollup"]) ==
      Match(MonitorFields("R1", "[L2]", "", "", "", "", "arbitrum rollup"))
  {
    var parts := ["R1", "[L2]", "arbitrum", "rollup"];
    assert parts[2..] == ["arbitrum", "rollup"];
    assert Join(["arbitrum", "rollup"]) == "arbitrum" + " " + "rollup";
    assert JoinFrom(parts, 2) == "arbitrum rollup";
    assert parts[1] != "[PROTOCOL]" && parts[1] != "[TOKEN]" && parts[1] != "[CONSENSUSLAYER]";
    assert parts[1] != "[MULTISIG]" && parts[1] != "[POOL]";
  }

  /**
   * `parse_custom_agent_name` as written: tags compared as spelled, the label
   * is the single token at its slot, an unknown tag gives `None`, and a name
   * of one token raises at `parts[1]`.
   */
  function DecodeCustomAgent(parts: seq<string>): (r: Decoded<MonitorFields>)
    ensures r.Error? <==> |parts| < 2
    ensures r.Error? ==> r.raised == IndexError
    ensures r.Match? <==> |parts| >= 2 && (parts[1] in AgentTags || parts[1] == "[TOKEN]")
    ensures r.Match? ==> r.fields.riskId == parts[0] && r.fields.contractType == parts[1]
  {
    if |parts| < 2 then Error(IndexError)
    else
      var riskId, tag := parts[0], parts[1];
      if tag in AgentTags then
        Match(MonitorFields(riskId, tag, TokenOr(parts, 2), TokenOr(parts, 3), TokenOr(parts, 4),
                            TokenOr(parts, 5), TokenOr(parts, 6)))
      else if tag == "[TOKEN]" then
        Match(MonitorFields(riskId, tag, TokenOr(parts, 2), "", TokenOr(parts, 3),
                            TokenOr(parts, 4), TokenOr(parts, 5)))
      else NoMatch
  }

  function ParseCustomAgentName(name: string): Decoded<MonitorFields> {
    DecodeCustomAgent(Split(name))
  }

  /** The position of the label slot in a recognised agent name. */
  function LabelSlot(tag: string): nat {
    if tag == "[TOKEN]" then 5 else 6
  }

  /**
   * Where the legacy decoder matches a name, the current one matches it too,
   * with the same fields except the label: the legacy label is only the
   * first word of the current one.
   */
  lemma LegacyAgentLabelIsFirstWord(name: string)
    requires ParseCustomAgentName(name).Match?
    ensures NameGrammar.ParseCustomAgentName(name).Match?
    ensures var legacy := ParseCustomAgentName(name).fields;
      var current := NameGrammar.ParseCustomAgentName(name).fields;
      legacy == current.(labelText := legacy.labelText) && legacy.labelText == Split(current.labelText)[0]
  {
    var parts := Split(name);
    var tag := parts[1];
    SplitGivesWords(name);
    UpperOfUpperCase(tag);
    var k := LabelSlot(tag);
    if k < |parts| {
      assert AreWords(parts[k..]) by {
        forall w | w in parts[k..] ensures IsWord(w) { assert w in parts; }
      }
      SplitJoin(parts[k..]);
    } else {
      assert Split("") == [""];
    }
  }

  /**
   * A lower-case tag is recognised by the current decoder and not by the
   * legacy one.
   */
  lemma LowerCaseAgentTag()
    ensures DecodeCustomAgent(["R1", "[vault]", "eth"]) == NoMatch
    ensures NameGrammar.DecodeCustomAgent(["R1", "[vault]", "eth"]) ==
      Match(MonitorFields("R1", "[vault]", "eth", "", "", "", ""))
  {
    assert Upper("[vault]") == "[VAULT]";
  }

  /** A one-word agent name raises in the legacy decoder and matches as `[OTHER]` in the current one. */
  lemma OneWordAgentNameRaises(name: string)
    requires IsWord(name)
    ensures ParseCustomAgentName(name) == Error(IndexError)
    ensures NameGrammar.ParseCustomAgentName(name).Match?
  {
    SplitWord(name);
  }
}
