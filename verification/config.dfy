/** The per-channel moderation policy and the default-filling applied to a parsed configuration file. */
module Config {
  import opened Optional

  type Nick = string
  type ChannelId = string

  /** A kick rule: a bare pattern, or a `[pattern, reason]` array whose reason may be absent. */
  datatype Rule =
    | Bare(pattern: string)
    | Pair(pattern: string, reason: Option<string>)
  {
    /** The kick reason: the explicit one if the rule carries one, else the pattern between slashes. */
    function KickReason(): string {
      if Pair? && reason.Some? then reason.value else "/" + pattern + "/"
    }
  }

  /** The join-flood policy: more than `maxJoins` joins of one account within `intervalSeconds` bans it. */
  datatype FloodPolicy = FloodPolicy(intervalSeconds: nat, maxJoins: nat) {
    function WindowMillis(): nat {
      intervalSeconds * 1000
    }
  }

  datatype ChannelPolicy = ChannelPolicy(
    ops: seq<Nick>,
    voiced: seq<Nick>,
    accounts: seq<(Nick, string)>,
    banAccountOnSpamJoin: Option<FloodPolicy>,
    kickOnJoin: seq<Nick>,
    kickIgnores: seq<Nick>,
    kickPatterns: map<string, seq<Rule>>)

  /** A channel table as the configuration parser hands it over: every field may be missing. */
  datatype RawChannel = RawChannel(
    ops: Option<seq<Nick>>,
    voiced: Option<seq<Nick>>,
    accounts: Option<seq<(Nick, string)>>,
    banAccountOnSpamJoin: Option<FloodPolicy>,
    kickOnJoin: Option<seq<Nick>>,
    kickIgnores: Option<seq<Nick>>,
    kickPatterns: Option<map<string, seq<Rule>>>)

  /** The parsed file: `watchConfig` and the channel tables, in file order. */
  datatype RawConfig = RawConfig(watchConfig: Option<bool>, channels: Option<seq<(ChannelId, RawChannel)>>)

  datatype Configuration = Configuration(watchConfig: bool, channels: seq<(ChannelId, ChannelPolicy)>)

  /** The value of the first entry whose key is `key` (a property lookup, or lodash's `_.find` on pairs). */
  function Find<V(==)>(entries: seq<(string, V)>, key: string): (r: Option<V>)
    ensures r.None? <==> forall i :: 0 <= i < |entries| ==> entries[i].0 != key
    ensures r.Some? ==> exists i :: 0 <= i < |entries| && entries[i].0 == key && entries[i].1 == r.value
                                    && forall j :: 0 <= j < i ==> entries[j].0 != key
  {
    if entries == [] then None
    else if entries[0].0 == key then Some(entries[0].1)
    else
      var r := Find(entries[1..], key);
      assert forall i :: 1 <= i < |entries| ==> entries[i] == entries[1..][i - 1];
      r
  }

  /** The account `nick` must be identified to before it gets op: its override, or the nick itself. */
  function AccountFor(accounts: seq<(Nick, string)>, nick: Nick): (account: string)
    ensures (exists i :: 0 <= i < |accounts| && accounts[i].0 == nick) ==>
              exists i :: 0 <= i < |accounts| && accounts[i] == (nick, account)
                          && forall j :: 0 <= j < i ==> accounts[j].0 != nick
    ensures (forall i :: 0 <= i < |accounts| ==> accounts[i].0 != nick) ==> account == nick
  {
    Find(accounts, nick).GetOr(nick)
  }

  /** The kick rules that apply to a message from `nick`: the wildcard rules, then the sender's own. */
  function KickRules(policy: ChannelPolicy, nick: Nick): (rules: seq<Rule>)
    ensures "*" !in policy.kickPatterns && nick !in policy.kickPatterns ==> rules == []
    ensures "*" in policy.kickPatterns ==> policy.kickPatterns["*"] <= rules
    ensures nick in policy.kickPatterns ==> exists k :: 0 <= k <= |rules| && rules[k..] == policy.kickPatterns[nick]
  {
    var wildcard := if "*" in policy.kickPatterns then policy.kickPatterns["*"] else [];
    var own := if nick in policy.kickPatterns then policy.kickPatterns[nick] else [];
    assert (wildcard + own)[|wildcard|..] == own;
    wildcard + own
  }

  /** The rules for a sender are exactly the wildcard list and its own list, nothing more. */
  lemma KickRulesLength(policy: ChannelPolicy, nick: Nick)
    ensures |KickRules(policy, nick)| == (if "*" in policy.kickPatterns then |policy.kickPatterns["*"]| else 0)
                                        + (if nick in policy.kickPatterns then |policy.kickPatterns[nick]| else 0)
  {
  }

  /** A parsed channel table with every missing field replaced by its empty default. */
  function NormaliseChannel(raw: RawChannel): (p: ChannelPolicy)
    ensures raw.ops.Some? ==> p.ops == raw.ops.value
    ensures raw.ops.None? ==> p.ops == []
    ensures raw.voiced.Some? ==> p.voiced == raw.voiced.value
    ensures raw.voiced.None? ==> p.voiced == []
    ensures raw.accounts.Some? ==> p.accounts == raw.accounts.value
    ensures raw.accounts.None? ==> p.accounts == []
    ensures p.banAccountOnSpamJoin == raw.banAccountOnSpamJoin
    ensures raw.kickOnJoin.Some? ==> p.kickOnJoin == raw.kickOnJoin.value
    ensures raw.kickOnJoin.None? ==> p.kickOnJoin == []
    ensures raw.kickIgnores.Some? ==> p.kickIgnores == raw.kickIgnores.value
    ensures raw.kickIgnores.None? ==> p.kickIgnores == []
    ensures raw.kickPatterns.Some? ==> p.kickPatterns == raw.kickPatterns.value
    ensures raw.kickPatterns.None? ==> p.kickPatterns == map[]
  {
    ChannelPolicy(
      raw.ops.GetOr([]),
      raw.voiced.GetOr([]),
      raw.accounts.GetOr([]),
      raw.banAccountOnSpamJoin,
      raw.kickOnJoin.GetOr([]),
      raw.kickIgnores.GetOr([]),
      raw.kickPatterns.GetOr(map[]))
  }

  /** A policy written back as a channel table with every field present. */
  function Embed(p: ChannelPolicy): RawChannel {
    RawChannel(Some(p.ops), Some(p.voiced), Some(p.accounts), p.banAccountOnSpamJoin,
               Some(p.kickOnJoin), Some(p.kickIgnores), Some(p.kickPatterns))
  }

  /** The configuration: `watchConfig` defaults to true, a missing channel list to no channels. */
  function Normalise(raw: RawConfig): (c: Configuration)
    ensures raw.watchConfig.None? ==> c.watchConfig
    ensures raw.watchConfig.Some? ==> c.watchConfig == raw.watchConfig.value
    ensures raw.channels.None? ==> c.channels == []
    ensures raw.channels.Some? ==> |c.channels| == |raw.channels.value|
    ensures raw.channels.Some? ==> forall i :: 0 <= i < |c.channels| ==>
              c.channels[i] == (raw.channels.value[i].0, NormaliseChannel(raw.channels.value[i].1))
  {
    var tables := raw.channels.GetOr([]);
    Configuration(
      raw.watchConfig.GetOr(true),
      seq(|tables|, i requires 0 <= i < |tables| => (tables[i].0, NormaliseChannel(tables[i].1))))
  }

  /** Filling defaults changes nothing in a table that has every field. */
  lemma NormaliseEmbed(p: ChannelPolicy)
    ensures NormaliseChannel(Embed(p)) == p
  {
  }

  /** Filling defaults twice is filling them once. */
  lemma NormaliseChannelIdempotent(raw: RawChannel)
    ensures NormaliseChannel(Embed(NormaliseChannel(raw))) == NormaliseChannel(raw)
  {
    NormaliseEmbed(NormaliseChannel(raw));
  }

  /** A channel has a policy after normalisation exactly when the file has a table for it, and it is that table, filled. */
  lemma {:induction false} NormaliseKeepsChannels(raw: RawConfig, id: ChannelId)
    ensures raw.channels.None? ==> Find(Normalise(raw).channels, id).None?
    ensures raw.channels.Some? ==>
              match Find(raw.channels.value, id)
              case None => Find(Normalise(raw).channels, id).None?
              case Some(t) => Find(Normalise(raw).channels, id) == Some(NormaliseChannel(t))
  {
    if raw.channels.Some? {
      FindMapped(raw.channels.value, Normalise(raw).channels, id);
    }
  }

  /** Looking up in a pointwise-normalised list is normalising the lookup in the original. */
  lemma {:induction false} FindMapped(tables: seq<(ChannelId, RawChannel)>, policies: seq<(ChannelId, ChannelPolicy)>, id: ChannelId)
    requires |policies| == |tables|
    requires forall i :: 0 <= i < |tables| ==> policies[i] == (tables[i].0, NormaliseChannel(tables[i].1))
    ensures match Find(tables, id)
            case None => Find(policies, id).None?
            case Some(t) => Find(policies, id) == Some(NormaliseChannel(t))
  {
    if tables != [] && tables[0].0 != id {
      FindMapped(tables[1..], policies[1..], id);
    }
  }
}
