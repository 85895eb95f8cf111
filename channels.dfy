/**
 * Alert channels of a monitor and the client that owns a channel.
 *
 * A monitor's detail payload lists alert policies; each policy lists channel
 * configurations, and each configuration may carry a channel name. The
 * channel directory pairs channel names with the client (DAO) that owns them.
 */
module Channels {
  import opened Basics

  /** One entry of a policy's `channelsConfigurations`; `name` may be missing or null. */
  datatype ChannelConfig = ChannelConfig(name: Option<string>)

  /** One alert policy; `channelsConfigurations` may be missing. */
  datatype AlertPolicy = AlertPolicy(channelsConfigurations: Option<seq<ChannelConfig>>)

  /** A configuration whose name is truthy: present and non-empty. */
  predicate IsNamed(c: ChannelConfig) {
    c.name.Some? && c.name.value != ""
  }

  /** The truthy names of a policy's configurations, in order. */
  function ConfigNames(configs: seq<ChannelConfig>): seq<string> {
    if configs == [] then []
    else
      var last := configs[|configs| - 1];
      ConfigNames(configs[..|configs| - 1]) + (if IsNamed(last) then [last.name.value] else [])
  }

  /** The configurations a policy contributes: `p.get("channelsConfigurations", [])`. */
  function Configs(p: AlertPolicy): seq<ChannelConfig> {
    p.channelsConfigurations.GetOr([])
  }

  /** The truthy names across all policies, in encounter order, duplicates kept. */
  function PolicyNames(policies: seq<AlertPolicy>): seq<string> {
    if policies == [] then []
    else PolicyNames(policies[..|policies| - 1]) + ConfigNames(Configs(policies[|policies| - 1]))
  }

  /** `alert_policies or []`: a missing or null policy list contributes nothing. */
  function ChannelNames(policies: Option<seq<AlertPolicy>>): seq<string> {
    PolicyNames(policies.GetOr([]))
  }

  /** `list(dict.fromkeys(s))`: first occurrences, in order. */
  function Dedup<T(==)>(s: seq<T>): seq<T> {
    if s == [] then []
    else
      var kept := Dedup(s[..|s| - 1]);
      if s[|s| - 1] in kept then kept else kept + [s[|s| - 1]]
  }

  /** Index of the first occurrence of `x` in `s`. */
  function FirstIndex<T(==)>(s: seq<T>, x: T): (k: nat)
    requires x in s
    ensures k < |s| && s[k] == x && x !in s[..k]
  {
    if s[0] == x then 0 else 1 + FirstIndex(s[1..], x)
  }

  // ----------------------------------------------------------- properties

  /** Every name that ends up in the list is non-empty. */
  lemma {:induction false} ConfigNamesNonEmpty(configs: seq<ChannelConfig>)
    ensures forall n :: n in ConfigNames(configs) ==> n != ""
    decreases |configs|
  {
    if configs != [] {
      ConfigNamesNonEmpty(configs[..|configs| - 1]);
    }
  }

  lemma {:induction false} ChannelNamesNonEmpty(policies: seq<AlertPolicy>)
    ensures forall n :: n in PolicyNames(policies) ==> n != ""
    decreases |policies|
  {
    if policies != [] {
      ChannelNamesNonEmpty(policies[..|policies| - 1]);
      ConfigNamesNonEmpty(Configs(policies[|policies| - 1]));
    }
  }

  /** Deduplication keeps exactly the elements of its input. */
  lemma {:induction false} DedupSameElements<T>(s: seq<T>)
    ensures forall x :: x in Dedup(s) <==> x in s
    decreases |s|
  {
    if s != [] {
      DedupSameElements(s[..|s| - 1]);
      assert s == s[..|s| - 1] + [s[|s| - 1]];
    }
  }

  /** Deduplication leaves no element twice. */
  lemma {:induction false} DedupNoDuplicates<T>(s: seq<T>)
    ensures NoDuplicates(Dedup(s))
    decreases |s|
  {
    if s != [] {
      DedupNoDuplicates(s[..|s| - 1]);
    }
  }

  /** A prefix's first occurrence is the first occurrence in the whole sequence. */
  lemma FirstIndexPrefix<T>(s: seq<T>, n: nat, x: T)
    requires n <= |s| && x in s[..n]
    ensures FirstIndex(s, x) == FirstIndex(s[..n], x)
  {
    var k, k' := FirstIndex(s, x), FirstIndex(s[..n], x);
    assert s[..n][..k'] == s[..k'];
    assert forall j :: 0 <= j < k ==> s[..k][j] != x;
    assert forall j :: 0 <= j < k' ==> s[..k'][j] != x;
    assert s[k'] == x;
  }

  /** An element that does not occur before position `n` first occurs at `n`. */
  lemma FirstIndexOfNew<T>(s: seq<T>, n: nat)
    requires n < |s| && s[n] !in s[..n]
    ensures FirstIndex(s, s[n]) == n
  {
    var k := FirstIndex(s, s[n]);
    assert forall j :: 0 <= j < n ==> s[j] == s[..n][j] != s[n];
    assert forall j :: 0 <= j < k ==> s[j] == s[..k][j] != s[n];
    assert s[k] == s[n];
  }

  /** The elements of `d` occur in `s`, in the order of their first occurrences there. */
  predicate InFirstOccurrenceOrder<T(==)>(s: seq<T>, d: seq<T>) {
    && (forall x :: x in d ==> x in s)
    && (forall i, j :: 0 <= i < j < |d| ==> FirstIndex(s, d[i]) < FirstIndex(s, d[j]))
  }

  /**
   * Deduplication keeps the encounter order: the kept elements appear in the
   * order of their first occurrences.
   */
  lemma {:induction false} DedupKeepsFirstOccurrenceOrder<T>(s: seq<T>)
    ensures InFirstOccurrenceOrder(s, Dedup(s))
    decreases |s|
  {
    DedupSameElements(s);
    if s != [] {
      var n := |s| - 1;
      var init := s[..n];
      DedupKeepsFirstOccurrenceOrder(init);
      DedupSameElements(init);
      var kept, d := Dedup(init), Dedup(s);
      var isNew := s[n] !in kept;
      assert d == if isNew then kept + [s[n]] else kept;
      forall x | x in kept ensures FirstIndex(s, x) == FirstIndex(init, x) < n {
        FirstIndexPrefix(s, n, x);
      }
      if isNew {
        FirstIndexOfNew(s, n);
      }
      forall i, j | 0 <= i < j < |d|
        ensures FirstIndex(s, d[i]) < FirstIndex(s, d[j])
      {
        assert d[i] == kept[i];
        if j < |kept| {
          assert d[j] == kept[j];
        } else {
          assert d[j] == s[n];
        }
      }
    }
  }

  /** A list without duplicates is left as it is. */
  lemma {:induction false} DedupOfDistinct<T>(s: seq<T>)
    requires NoDuplicates(s)
    ensures Dedup(s) == s
    decreases |s|
  {
    if s != [] {
      DedupOfDistinct(s[..|s| - 1]);
      assert s[|s| - 1] !in s[..|s| - 1];
      assert s[..|s| - 1] + [s[|s| - 1]] == s;
    }
  }

  /** Deduplicating twice is deduplicating once. */
  lemma DedupIdempotent<T>(s: seq<T>)
    ensures Dedup(Dedup(s)) == Dedup(s)
  {
    DedupNoDuplicates(s);
    DedupOfDistinct(Dedup(s));
  }

  // ------------------------------------------------------------ extraction

  /**
   * `extract_channels`: collect the truthy names of every configuration of
   * every policy, then keep the first occurrence of each.
   */
  method ExtractChannels(policies: Option<seq<AlertPolicy>>) returns (channels: seq<string>)
    ensures channels == Dedup(ChannelNames(policies))
    ensures NoDuplicates(channels)
    ensures forall n :: n in channels <==> n in ChannelNames(policies)
    ensures forall n :: n in channels ==> n != ""
  {
    var ps := policies.GetOr([]);
    var out: seq<string> := [];
    var i := 0;
    while i < |ps|
      invariant 0 <= i <= |ps|
      invariant out == PolicyNames(ps[..i])
    {
      var configs := Configs(ps[i]);
      var j := 0;
      while j < |configs|
        invariant 0 <= j <= |configs|
        invariant out == PolicyNames(ps[..i]) + ConfigNames(configs[..j])
      {
        var cc := configs[j];
        if cc.name.Some? && cc.name.value != "" {
          out := out + [cc.name.value];
        }
        assert configs[..j + 1][..j] == configs[..j];
        j := j + 1;
      }
      assert configs[..j] == configs;
      assert ps[..i + 1][..i] == ps[..i];
      i := i + 1;
    }
    assert ps[..i] == ps;

    channels := [];
    var seen: set<string> := {};
    var k := 0;
    while k < |out|
      invariant 0 <= k <= |out|
      invariant channels == Dedup(out[..k])
      invariant seen == set n | n in channels
    {
      if out[k] !in seen {
        channels := channels + [out[k]];
        seen := seen + {out[k]};
      }
      assert out[..k + 1][..k] == out[..k];
      k := k + 1;
    }
    assert out[..k] == out;
    DedupNoDuplicates(out);
    DedupSameElements(out);
    ChannelNamesNonEmpty(ps);
  }

  // ---------------------------------------------------------- client lookup

  /** One channel-directory entry; `dao` may be missing or null. */
  datatype ChannelEntry = ChannelEntry(name: string, dao: Option<string>)

  /** An entry that claims real ownership: its dao is truthy and not the `"None"` sentinel. */
  predicate IsOwned(e: ChannelEntry) {
    e.dao.Some? && e.dao.value != "" && e.dao.value != "None"
  }

  /** The dict comprehension `{name: dao for owned entries}`: a later entry overwrites an earlier one. */
  function DaoMap(directory: seq<ChannelEntry>): map<string, string> {
    if directory == [] then map[]
    else
      var m := DaoMap(directory[..|directory| - 1]);
      var e := directory[|directory| - 1];
      if IsOwned(e) then m[e.name := e.dao.value] else m
  }

  /** `get_client_dao`: the owner of a channel, or the `"None"` sentinel. */
  function ClientDao(directory: seq<ChannelEntry>, channel: string): string {
    var m := DaoMap(directory);
    if channel == "None" then "None"
    else if channel in m then m[channel]
    else "None"
  }

  /** An owned entry for `channel` at position `k` with no owned entry for it after `k`. */
  predicate IsLastOwner(directory: seq<ChannelEntry>, channel: string, k: int) {
    && 0 <= k < |directory|
    && directory[k].name == channel && IsOwned(directory[k])
    && forall j :: k < j < |directory| ==> !(directory[j].name == channel && IsOwned(directory[j]))
  }

  /** The map holds a channel exactly when an owned entry names it. */
  lemma {:induction false} DaoMapKeys(directory: seq<ChannelEntry>, channel: string)
    ensures channel in DaoMap(directory) <==>
      exists i :: 0 <= i < |directory| && directory[i].name == channel && IsOwned(directory[i])
    decreases |directory|
  {
    if directory != [] {
      var n := |directory| - 1;
      var init := directory[..n];
      DaoMapKeys(init, channel);
      if exists i :: 0 <= i < |init| && init[i].name == channel && IsOwned(init[i]) {
        var i :| 0 <= i < |init| && init[i].name == channel && IsOwned(init[i]);
        assert directory[i] == init[i];
      }
      if exists i :: 0 <= i < |directory| && directory[i].name == channel && IsOwned(directory[i]) {
        var i :| 0 <= i < |directory| && directory[i].name == channel && IsOwned(directory[i]);
        if i < n {
          assert init[i] == directory[i];
        }
      }
    }
  }

  /** A later owned entry overwrites an earlier one: the map holds the last owner's dao. */
  lemma {:induction false} DaoMapLastOwner(directory: seq<ChannelEntry>, channel: string, k: int)
    requires IsLastOwner(directory, channel, k)
    ensures channel in DaoMap(directory) && DaoMap(directory)[channel] == directory[k].dao.value
    decreases |directory|
  {
    var n := |directory| - 1;
    var init := directory[..n];
    if k < n {
      assert init[k] == directory[k];
      assert IsLastOwner(init, channel, k) by {
        forall j | k < j < |init| ensures !(init[j].name == channel && IsOwned(init[j])) {
          assert init[j] == directory[j];
        }
      }
      DaoMapLastOwner(init, channel, k);
    }
  }

  /** The last owned entry for a channel decides its client. */
  lemma ClientDaoLastEntryWins(directory: seq<ChannelEntry>, channel: string, k: int)
    requires channel != "None" && IsLastOwner(directory, channel, k)
    ensures ClientDao(directory, channel) == directory[k].dao.value
  {
    DaoMapLastOwner(directory, channel, k);
  }

  /**
   * The client is the sentinel exactly when the channel is the sentinel or
   * no owned entry names it; otherwise it is some owned entry's dao, so never
   * empty and never a disowning entry.
   */
  lemma ClientDaoNoneIff(directory: seq<ChannelEntry>, channel: string)
    ensures ClientDao(directory, channel) == "None" <==>
      channel == "None" ||
      forall i :: 0 <= i < |directory| && directory[i].name == channel ==> !IsOwned(directory[i])
    ensures ClientDao(directory, channel) != ""
    ensures ClientDao(directory, channel) != "None" ==>
      exists k :: IsLastOwner(directory, channel, k) && ClientDao(directory, channel) == directory[k].dao.value
  {
    DaoMapKeys(directory, channel);
    if exists i :: 0 <= i < |directory| && directory[i].name == channel && IsOwned(directory[i]) {
      var k := LastOwnerIndex(directory, channel);
      DaoMapLastOwner(directory, channel, k);
    }
  }

  /** The position of the last owned entry naming `channel`. */
  function LastOwnerIndex(directory: seq<ChannelEntry>, channel: string): (k: int)
    requires exists i :: 0 <= i < |directory| && directory[i].name == channel && IsOwned(directory[i])
    ensures IsLastOwner(directory, channel, k)
    decreases |directory|
  {
    var n := |directory| - 1;
    if directory[n].name == channel && IsOwned(directory[n]) then n
    else
      assert exists i :: 0 <= i < n && directory[..n][i].name == channel && IsOwned(directory[..n][i]) by {
        var i :| 0 <= i < |directory| && directory[i].name == channel && IsOwned(directory[i]);
        assert i < n && directory[..n][i] == directory[i];
      }
      var k := LastOwnerIndex(directory[..n], channel);
      assert directory[k] == directory[..n][k];
      k
  }
}
