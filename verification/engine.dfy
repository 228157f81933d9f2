/** The moderation engine: the bot's state and one pure step function per protocol event. */
module Engine {
  import opened Optional
  import opened Seqs
  import opened Irc
  import opened Config
  import opened JoinFlood

  /** An identity lookup in flight: once `nick`'s account is known, it gets op in `channel`
      if that account is `account` (captured from the channel's policy when the lookup was asked for). */
  datatype PendingWhois = PendingWhois(channel: ChannelId, nick: Nick, account: string)

  /** Everything the handlers share: the configuration, the bot's own nick, the per-channel
      "op acquired" flags, the join ledger and the identity lookups still awaiting a reply. */
  datatype State = State(
    config: Configuration,
    botNick: Nick,
    opAcquired: map<ChannelId, bool>,
    joins: seq<JoinEntry>,
    pending: seq<PendingWhois>)

  /** One entry of a mode-change event: the mode with its sign, and its parameter if it has one. */
  datatype ModeChange = ModeChange(mode: string, param: Option<string>)

  /** One user of a channel's user list, with the modes the user holds there. */
  datatype ListedUser = ListedUser(nick: Nick, modes: seq<string>)

  datatype Event =
    | Registered
    | Joined(channel: ChannelId, nick: Nick, account: Option<string>, now: int)
    | NickChanged(newNick: Nick)
    | ModesChanged(target: string, modes: seq<ModeChange>)
    | UserList(channel: ChannelId, users: seq<ListedUser>)
    | Kicked(channel: ChannelId, kicked: Nick)
    | Message(target: ChannelId, nick: Nick, message: string)
    | WhoisReply(nick: Nick, account: Option<string>)

  /** The state after an event and the commands the event caused, in the order they are sent. */
  datatype Reaction = Reaction(state: State, commands: seq<Command>)

  /** The state a freshly started bot is in. */
  function Init(config: Configuration, botNick: Nick): State {
    State(config, botNick, map[], [], [])
  }

  predicate OpAcquired(s: State, channel: ChannelId) {
    channel in s.opAcquired && s.opAcquired[channel]
  }

  function PolicyOf(s: State, channel: ChannelId): Option<ChannelPolicy> {
    Find(s.config.channels, channel)
  }

  /** The bot holds op in `channel` and the channel has a policy: only then are privileges granted. */
  predicate MayModerate(s: State, channel: ChannelId) {
    OpAcquired(s, channel) && PolicyOf(s, channel).Some?
  }

  /** `nick` is a configured op of `channel` that does not hold op yet. */
  predicate WantsOp(s: State, channel: ChannelId, nick: Nick, isOpAlready: bool) {
    MayModerate(s, channel) && !isOpAlready && nick in PolicyOf(s, channel).value.ops
  }

  /** `nick` is a configured voiced user of `channel` that does not hold voice yet. */
  predicate WantsVoice(s: State, channel: ChannelId, nick: Nick, isVoicedAlready: bool) {
    MayModerate(s, channel) && !isVoicedAlready && nick in PolicyOf(s, channel).value.voiced
  }

  /** A lookup the policy of its channel asks for: its nick is a configured op there and its
      expected account is the one configured for that nick. */
  predicate Sanctioned(s: State, p: PendingWhois) {
    && PolicyOf(s, p.channel).Some?
    && p.nick in PolicyOf(s, p.channel).value.ops
    && p.account == AccountFor(PolicyOf(s, p.channel).value.accounts, p.nick)
  }

  /** The lookup `SetUserModes` records for `nick` in `channel`: it expects the account configured for the nick. */
  function ExpectedLookup(s: State, channel: ChannelId, nick: Nick): PendingWhois
    requires PolicyOf(s, channel).Some?
  {
    PendingWhois(channel, nick, AccountFor(PolicyOf(s, channel).value.accounts, nick))
  }

  /** Grants `nick` the privileges its channel's policy gives it: voice at once, op only after
      an identity lookup (a WHOIS now, a pending lookup answered by a later reply). */
  function SetUserModes(s: State, channel: ChannelId, nick: Nick, isOpAlready: bool, isVoicedAlready: bool): (r: Reaction)
    ensures !MayModerate(s, channel) ==> r == Reaction(s, [])
    ensures r.state == s.(pending := r.state.pending)
    ensures forall c :: c in r.commands ==> c == Whois(nick) || c == Mode(channel, Voice, nick)
    ensures Whois(nick) in r.commands <==> WantsOp(s, channel, nick, isOpAlready)
    ensures Mode(channel, Voice, nick) in r.commands <==> WantsVoice(s, channel, nick, isVoicedAlready)
    ensures |r.commands| == (if WantsOp(s, channel, nick, isOpAlready) then 1 else 0)
                            + (if WantsVoice(s, channel, nick, isVoicedAlready) then 1 else 0)
    ensures WantsOp(s, channel, nick, isOpAlready) && WantsVoice(s, channel, nick, isVoicedAlready) ==>
              r.commands == [Whois(nick), Mode(channel, Voice, nick)]
    ensures WantsOp(s, channel, nick, isOpAlready) ==>
              r.state.pending == s.pending + [ExpectedLookup(s, channel, nick)]
    ensures !WantsOp(s, channel, nick, isOpAlready) ==> r.state.pending == s.pending
  {
    if !MayModerate(s, channel) then Reaction(s, [])
    else
      var policy := PolicyOf(s, channel).value;
      var lookup := if !isOpAlready && nick in policy.ops then [PendingWhois(channel, nick, AccountFor(policy.accounts, nick))] else [];
      var whois := if !isOpAlready && nick in policy.ops then [Whois(nick)] else [];
      var voice := if !isVoicedAlready && nick in policy.voiced then [Mode(channel, Voice, nick)] else [];
      Reaction(s.(pending := s.pending + lookup), whois + voice)
  }

  /** The lookups a reply for `nick` reporting `account` confirms: those waiting on `nick` that
      expect exactly that account, in the order they were asked. */
  function Confirmed(pending: seq<PendingWhois>, nick: Nick, account: Option<string>): seq<PendingWhois> {
    Reject(pending, (p: PendingWhois) => !(p.nick == nick && account == Some(p.account)))
  }

  /** The op grants a reply to a lookup of `nick` releases: one per pending lookup of that
      nick whose expected account is the one the reply reports, in the order they were asked. */
  function Grants(pending: seq<PendingWhois>, nick: Nick, account: Option<string>): (r: seq<Command>)
    ensures forall c :: c in r ==>
              exists p :: p in pending && p.nick == nick && account == Some(p.account) && c == Mode(p.channel, Op, nick)
    ensures forall p :: p in pending && p.nick == nick && account == Some(p.account) ==> Mode(p.channel, Op, nick) in r
    ensures (forall p :: p in pending && p.nick == nick ==> account != Some(p.account)) ==> r == []
  {
    if pending == [] then []
    else
      var p := pending[0];
      var rest := Grants(pending[1..], nick, account);
      assert forall q :: q in pending[1..] ==> q in pending;
      assert forall q :: q in pending ==> q == p || q in pending[1..];
      if p.nick == nick && account == Some(p.account) then [Mode(p.channel, Op, nick)] + rest else rest
  }

  /** One grant per confirmed lookup, in the order the lookups were asked. */
  lemma {:induction false} GrantsConfirmed(pending: seq<PendingWhois>, nick: Nick, account: Option<string>)
    ensures var r := Grants(pending, nick, account);
            && |r| == |Confirmed(pending, nick, account)|
            && forall i :: 0 <= i < |r| ==> r[i] == Mode(Confirmed(pending, nick, account)[i].channel, Op, nick)
  {
    if pending != [] {
      var p, tail := pending[0], pending[1..];
      GrantsConfirmed(tail, nick, account);
      var r, c := Grants(tail, nick, account), Confirmed(tail, nick, account);
      var g := Grants(pending, nick, account);
      var k := ConfirmedUnfold(pending, nick, account);
      if p.nick == nick && account == Some(p.account) {
        assert g == [Mode(p.channel, Op, nick)] + r;
        forall i | 0 <= i < |g| ensures g[i] == Mode(k[i].channel, Op, nick) {
          if i > 0 {
            assert g[i] == r[i - 1] && k[i] == c[i - 1];
          }
        }
      } else {
        assert g == r;
      }
    }
  }

  /** `Confirmed` one lookup at a time. */
  lemma ConfirmedUnfold(pending: seq<PendingWhois>, nick: Nick, account: Option<string>) returns (k: seq<PendingWhois>)
    requires pending != []
    ensures k == Confirmed(pending, nick, account)
    ensures k == (if pending[0].nick == nick && account == Some(pending[0].account) then [pending[0]] else [])
                 + Confirmed(pending[1..], nick, account)
  {
    k := Confirmed(pending, nick, account);
  }

  /** A WHOIS reply for `nick`: every lookup waiting on `nick` is answered and removed, and op is
      granted where the reported account is the expected one. */
  function OnWhoisReply(s: State, nick: Nick, account: Option<string>): (r: Reaction)
    ensures r.state == s.(pending := r.state.pending)
    ensures forall p :: p in r.state.pending ==> p in s.pending && p.nick != nick
    ensures forall p: PendingWhois :: p.nick != nick ==> multiset(r.state.pending)[p] == multiset(s.pending)[p]
    ensures forall c :: c in r.commands ==>
              exists p :: p in s.pending && p.nick == nick && account == Some(p.account) && c == Mode(p.channel, Op, nick)
    ensures forall p :: p in s.pending && p.nick == nick && account == Some(p.account) ==> Mode(p.channel, Op, nick) in r.commands
    ensures (forall p :: p in s.pending && p.nick == nick ==> account != Some(p.account)) ==> r.commands == []
    ensures |r.commands| == |Confirmed(s.pending, nick, account)|
    ensures forall i :: 0 <= i < |r.commands| ==> r.commands[i] == Mode(Confirmed(s.pending, nick, account)[i].channel, Op, nick)
  {
    GrantsConfirmed(s.pending, nick, account);
    Reaction(s.(pending := Reject(s.pending, (p: PendingWhois) => p.nick == nick)), Grants(s.pending, nick, account))
  }

  /** Once registered with the server, the bot joins every configured channel, in file order. */
  function OnRegistered(s: State): (r: seq<Command>)
    ensures |r| == |s.config.channels|
    ensures forall i :: 0 <= i < |r| ==> r[i] == Join(s.config.channels[i].0)
    ensures forall ch :: Join(ch) in r <==> PolicyOf(s, ch).Some?
    ensures forall c :: c in r ==> c.Join?
  {
    var ids := s.config.channels;
    var r := seq(|ids|, i requires 0 <= i < |ids| => Join(ids[i].0));
    assert forall ch :: Join(ch) in r ==> exists i :: 0 <= i < |ids| && ids[i].0 == ch;
    r
  }

  /** A user joined `channel`: the bot asks for op on its own join; a `kickOnJoin` user is kicked
      at once; anyone else gets the privileges the policy grants and is checked for join flooding. */
  function OnJoin(s: State, channel: ChannelId, nick: Nick, account: Option<string>, now: int): (r: Reaction)
    ensures PolicyOf(s, channel).None? ==> r == Reaction(s, [])
    ensures PolicyOf(s, channel).Some? && nick == s.botNick ==> r == Reaction(s, [Mode(channel, Op, s.botNick)])
    ensures PolicyOf(s, channel).Some? && nick != s.botNick && nick in PolicyOf(s, channel).value.kickOnJoin ==>
              r == Reaction(s, [Kick(channel, nick, "")])
    ensures r.state.config == s.config && r.state.botNick == s.botNick && r.state.opAcquired == s.opAcquired
    ensures forall c :: c in r.commands && c.Mode? && c.flag == Op ==> nick == s.botNick && c == Mode(channel, Op, s.botNick)
    ensures forall p :: p in r.state.pending ==>
              || p in s.pending
              || (WantsOp(s, channel, nick, false) && p == ExpectedLookup(s, channel, nick))
  {
    if PolicyOf(s, channel).None? then Reaction(s, [])
    else
      var policy := PolicyOf(s, channel).value;
      if nick == s.botNick then Reaction(s, [Mode(channel, Op, s.botNick)])
      else if nick in policy.kickOnJoin then Reaction(s, [Kick(channel, nick, "")])
      else
        var modes := SetUserModes(s, channel, nick, false, false);
        var flood := BanOnSpamJoin(policy, channel, nick, account, now, modes.state.joins);
        Reaction(modes.state.(joins := flood.joins), modes.commands + flood.commands)
  }

  /** `SetUserModes` for `nick` in each of `channels`, one after the other. */
  function SetModesEverywhere(s: State, channels: seq<(ChannelId, ChannelPolicy)>, nick: Nick): (r: Reaction)
    decreases |channels|
    ensures r.state == s.(pending := r.state.pending)
    ensures s.pending <= r.state.pending
  {
    if channels == [] then Reaction(s, [])
    else
      var first := SetUserModes(s, channels[0].0, nick, false, false);
      var rest := SetModesEverywhere(first.state, channels[1..], nick);
      Reaction(rest.state, first.commands + rest.commands)
  }

  /** The nick-change fold sends only WHOIS and voice commands for `nick`, in the listed channels that grant them. */
  lemma {:induction false} EverywhereCommands(s: State, channels: seq<(ChannelId, ChannelPolicy)>, nick: Nick)
    decreases |channels|
    ensures var r := SetModesEverywhere(s, channels, nick);
            && (forall c :: c in r.commands ==> c == Whois(nick) || (c.Mode? && c == Mode(c.channel, Voice, nick)))
            && (forall ch :: Mode(ch, Voice, nick) in r.commands <==>
                  (exists i :: 0 <= i < |channels| && channels[i].0 == ch) && WantsVoice(s, ch, nick, false))
            && (Whois(nick) in r.commands <==> exists i :: 0 <= i < |channels| && WantsOp(s, channels[i].0, nick, false))
  {
    if channels != [] {
      var first := SetUserModes(s, channels[0].0, nick, false, false);
      EverywhereCommands(first.state, channels[1..], nick);
      SameDecisions(s, first.state);
      assert forall i :: 1 <= i < |channels| ==> channels[i] == channels[1..][i - 1];
    }
  }

  /** Every lookup the nick-change fold adds is for `nick` and sanctioned by the policy. */
  lemma {:induction false} EverywhereLookups(s: State, channels: seq<(ChannelId, ChannelPolicy)>, nick: Nick)
    decreases |channels|
    ensures forall p :: p in SetModesEverywhere(s, channels, nick).state.pending ==>
              p in s.pending || (p.nick == nick && Sanctioned(s, p))
  {
    if channels != [] {
      var first := SetUserModes(s, channels[0].0, nick, false, false);
      EverywhereLookups(first.state, channels[1..], nick);
      SameSanctions(s, first.state);
    }
  }

  /** Every listed channel where `nick` is due op gets a lookup expecting the account configured for it. */
  lemma {:induction false} EverywhereLookupsComplete(s: State, channels: seq<(ChannelId, ChannelPolicy)>, nick: Nick)
    decreases |channels|
    ensures forall i :: 0 <= i < |channels| && WantsOp(s, channels[i].0, nick, false) ==>
              ExpectedLookup(s, channels[i].0, nick) in SetModesEverywhere(s, channels, nick).state.pending
  {
    if channels != [] {
      var first := SetUserModes(s, channels[0].0, nick, false, false);
      var r := SetModesEverywhere(first.state, channels[1..], nick);
      EverywhereLookupsComplete(first.state, channels[1..], nick);
      SameDecisions(s, first.state);
      assert first.state.pending <= r.state.pending;
      forall i | 0 <= i < |channels| && WantsOp(s, channels[i].0, nick, false)
        ensures ExpectedLookup(s, channels[i].0, nick) in r.state.pending
      {
        if i == 0 {
          assert ExpectedLookup(s, channels[0].0, nick) in first.state.pending;
        } else {
          assert channels[i] == channels[1..][i - 1];
          assert ExpectedLookup(first.state, channels[i].0, nick) == ExpectedLookup(s, channels[i].0, nick);
        }
      }
    }
  }

  /** A user changed nick: the new nick gets, in every configured channel, the privileges it is due. */
  function OnNick(s: State, newNick: Nick): (r: Reaction)
    ensures r.state == s.(pending := r.state.pending)
    ensures forall ch :: WantsOp(s, ch, newNick, false) ==> ExpectedLookup(s, ch, newNick) in r.state.pending
    ensures forall p :: p in r.state.pending ==> p in s.pending || (p.nick == newNick && Sanctioned(s, p))
    ensures forall ch :: Mode(ch, Voice, newNick) in r.commands <==> WantsVoice(s, ch, newNick, false)
    ensures Whois(newNick) in r.commands <==> exists ch :: WantsOp(s, ch, newNick, false)
    ensures forall c :: c in r.commands ==> c == Whois(newNick) || (c.Mode? && c == Mode(c.channel, Voice, newNick))
  {
    EverywhereCommands(s, s.config.channels, newNick);
    EverywhereLookups(s, s.config.channels, newNick);
    EverywhereLookupsComplete(s, s.config.channels, newNick);
    assert forall ch :: WantsOp(s, ch, newNick, false) ==> exists i :: 0 <= i < |s.config.channels| && s.config.channels[i].0 == ch;
    SetModesEverywhere(s, s.config.channels, newNick)
  }

  /** The bot has just been given op in `target` by this mode change. */
  predicate GrantsBotOp(s: State, modes: seq<ModeChange>) {
    exists m :: m in modes && m.mode == Op.Text() && m.param == Some(s.botNick)
  }

  /** A mode change: the first `+o` for the bot in a channel records op as acquired there and asks
      for the channel's user list; anything else changes nothing. */
  function OnMode(s: State, target: string, modes: seq<ModeChange>): (r: Reaction)
    ensures GrantsBotOp(s, modes) ==> OpAcquired(r.state, target)
    ensures forall ch :: ch != target ==> (OpAcquired(r.state, ch) <==> OpAcquired(s, ch))
    ensures r.state == s.(opAcquired := r.state.opAcquired)
    ensures r.commands != [] <==> GrantsBotOp(s, modes) && !OpAcquired(s, target)
    ensures r.commands != [] ==> r.commands == [Names(target)]
    ensures r.commands == [] ==> r.state == s
  {
    if GrantsBotOp(s, modes) && !OpAcquired(s, target) then
      Reaction(s.(opAcquired := s.opAcquired[target := true]), [Names(target)])
    else
      Reaction(s, [])
  }

  /** `SetUserModes` for each listed user, given the modes the user already holds. */
  function SetModesForUsers(s: State, channel: ChannelId, users: seq<ListedUser>): (r: Reaction)
    decreases |users|
    ensures r.state == s.(pending := r.state.pending)
    ensures s.pending <= r.state.pending
  {
    if users == [] then Reaction(s, [])
    else
      var u := users[0];
      var first := SetUserModes(s, channel, u.nick, "o" in u.modes, "v" in u.modes);
      var rest := SetModesForUsers(first.state, channel, users[1..]);
      Reaction(rest.state, first.commands + rest.commands)
  }

  /** Only the pending lookups change, so every policy decision reads the same in both states. */
  lemma SameDecisions(s: State, t: State)
    requires t == s.(pending := t.pending)
    ensures forall ch, n, b :: WantsOp(t, ch, n, b) == WantsOp(s, ch, n, b)
    ensures forall ch, n, b :: WantsVoice(t, ch, n, b) == WantsVoice(s, ch, n, b)
  {
  }

  /** Only the pending lookups change, so a lookup is sanctioned in both states or in neither. */
  lemma SameSanctions(s: State, t: State)
    requires t == s.(pending := t.pending)
    ensures forall p :: Sanctioned(t, p) == Sanctioned(s, p)
  {
  }

  /** The user-list fold sends only WHOIS and voice commands, for the listed users that need them. */
  lemma {:induction false} UserListCommands(s: State, channel: ChannelId, users: seq<ListedUser>)
    decreases |users|
    ensures var r := SetModesForUsers(s, channel, users);
            && (forall c :: c in r.commands ==> c.Whois? || (c.Mode? && c == Mode(channel, Voice, c.param)))
            && (forall n :: Whois(n) in r.commands <==>
                  exists u :: u in users && u.nick == n && WantsOp(s, channel, n, "o" in u.modes))
            && (forall n :: Mode(channel, Voice, n) in r.commands <==>
                  exists u :: u in users && u.nick == n && WantsVoice(s, channel, n, "v" in u.modes))
  {
    if users != [] {
      var u := users[0];
      var first := SetUserModes(s, channel, u.nick, "o" in u.modes, "v" in u.modes);
      UserListCommands(first.state, channel, users[1..]);
      SameDecisions(s, first.state);
      assert forall v :: v in users <==> v == u || v in users[1..];
    }
  }

  /** Every lookup the user-list fold adds is sanctioned by the policy. */
  lemma {:induction false} UserListLookups(s: State, channel: ChannelId, users: seq<ListedUser>)
    decreases |users|
    ensures forall p :: p in SetModesForUsers(s, channel, users).state.pending ==> p in s.pending || Sanctioned(s, p)
  {
    if users != [] {
      var u := users[0];
      var first := SetUserModes(s, channel, u.nick, "o" in u.modes, "v" in u.modes);
      UserListLookups(first.state, channel, users[1..]);
      SameSanctions(s, first.state);
    }
  }

  /** The number of entries of `users` listed as `nick` without op. */
  function ListedWithoutOp(users: seq<ListedUser>, nick: Nick): nat
    decreases |users|
  {
    if users == [] then 0
    else (if users[0].nick == nick && "o" !in users[0].modes then 1 else 0) + ListedWithoutOp(users[1..], nick)
  }

  /** `p` is the lookup `SetUserModes` would record for its nick in `channel`, were the nick listed without op. */
  predicate ExpectsLookup(s: State, channel: ChannelId, p: PendingWhois) {
    WantsOp(s, channel, p.nick, false) && p == ExpectedLookup(s, channel, p.nick)
  }

  /** The user-list fold records one lookup per listed entry without op whose nick is due it, and nothing else. */
  lemma {:induction false} UserListLookupsCount(s: State, channel: ChannelId, users: seq<ListedUser>)
    decreases |users|
    ensures forall p :: multiset(SetModesForUsers(s, channel, users).state.pending)[p]
                        == multiset(s.pending)[p] + (if ExpectsLookup(s, channel, p) then ListedWithoutOp(users, p.nick) else 0)
  {
    if users != [] {
      var u := users[0];
      var first := SetUserModes(s, channel, u.nick, "o" in u.modes, "v" in u.modes);
      var r := SetModesForUsers(first.state, channel, users[1..]);
      UserListLookupsCount(first.state, channel, users[1..]);
      SameDecisions(s, first.state);
      forall p ensures multiset(r.state.pending)[p]
                       == multiset(s.pending)[p] + (if ExpectsLookup(s, channel, p) then ListedWithoutOp(users, p.nick) else 0)
      {
        assert ExpectsLookup(first.state, channel, p) == ExpectsLookup(s, channel, p);
        if WantsOp(s, channel, u.nick, "o" in u.modes) {
          assert first.state.pending == s.pending + [ExpectedLookup(s, channel, u.nick)];
          assert multiset(first.state.pending)[p]
                 == multiset(s.pending)[p] + (if p == ExpectedLookup(s, channel, u.nick) then 1 else 0);
        }
      }
    }
  }

  /** Every listed user that is due op gets a lookup expecting the account configured for it. */
  lemma {:induction false} UserListLookupsComplete(s: State, channel: ChannelId, users: seq<ListedUser>)
    decreases |users|
    ensures forall u :: u in users && WantsOp(s, channel, u.nick, "o" in u.modes) ==>
              ExpectedLookup(s, channel, u.nick) in SetModesForUsers(s, channel, users).state.pending
  {
    if users != [] {
      var u := users[0];
      var first := SetUserModes(s, channel, u.nick, "o" in u.modes, "v" in u.modes);
      var r := SetModesForUsers(first.state, channel, users[1..]);
      UserListLookupsComplete(first.state, channel, users[1..]);
      SameDecisions(s, first.state);
      assert first.state.pending <= r.state.pending;
      forall v | v in users && WantsOp(s, channel, v.nick, "o" in v.modes)
        ensures ExpectedLookup(s, channel, v.nick) in r.state.pending
      {
        if v == u {
          assert ExpectedLookup(s, channel, u.nick) in first.state.pending;
        } else {
          assert v in users[1..];
          assert ExpectedLookup(first.state, channel, v.nick) == ExpectedLookup(s, channel, v.nick);
        }
      }
    }
  }

  /** A user list whose users all hold op and voice already changes nothing and sends nothing. */
  lemma {:induction false} UserListAllPrivileged(s: State, channel: ChannelId, users: seq<ListedUser>)
    decreases |users|
    ensures (forall u :: u in users ==> "o" in u.modes && "v" in u.modes) ==>
              SetModesForUsers(s, channel, users) == Reaction(s, [])
  {
    if users != [] {
      UserListAllPrivileged(s, channel, users[1..]);
    }
  }

  /** A channel's user list: once op is held there, each listed user gets the privileges it is
      due and does not already hold. */
  function OnUserList(s: State, channel: ChannelId, users: seq<ListedUser>): (r: Reaction)
    ensures !OpAcquired(s, channel) ==> r == Reaction(s, [])
    ensures r.state == s.(pending := r.state.pending)
    ensures (forall u :: u in users ==> "o" in u.modes && "v" in u.modes) ==> r == Reaction(s, [])
    ensures forall c :: c in r.commands ==> c.Whois? || (c.Mode? && c == Mode(channel, Voice, c.param))
    ensures forall n :: Whois(n) in r.commands <==>
              exists u :: u in users && u.nick == n && WantsOp(s, channel, n, "o" in u.modes)
    ensures forall n :: Mode(channel, Voice, n) in r.commands <==>
              exists u :: u in users && u.nick == n && WantsVoice(s, channel, n, "v" in u.modes)
    ensures forall u :: u in users && WantsOp(s, channel, u.nick, "o" in u.modes) ==>
              ExpectedLookup(s, channel, u.nick) in r.state.pending
    ensures forall p :: p in r.state.pending ==> p in s.pending || Sanctioned(s, p)
    ensures forall p :: multiset(r.state.pending)[p]
                        == multiset(s.pending)[p] + (if ExpectsLookup(s, channel, p) then ListedWithoutOp(users, p.nick) else 0)
  {
    if !OpAcquired(s, channel) then Reaction(s, [])
    else
      UserListCommands(s, channel, users);
      UserListLookupsCount(s, channel, users);
      UserListLookups(s, channel, users);
      UserListLookupsComplete(s, channel, users);
      UserListAllPrivileged(s, channel, users);
      SetModesForUsers(s, channel, users)
  }

  /** The bot was kicked from `channel`: it no longer holds op there and joins again. Kicks of
      other users change nothing. */
  function OnKick(s: State, channel: ChannelId, kicked: Nick): (r: Reaction)
    ensures kicked == s.botNick ==> !OpAcquired(r.state, channel) && r.commands == [Join(channel)]
    ensures kicked != s.botNick ==> r == Reaction(s, [])
    ensures r.state == s.(opAcquired := r.state.opAcquired)
    ensures forall ch :: ch != channel ==> (OpAcquired(r.state, ch) <==> OpAcquired(s, ch))
  {
    if kicked == s.botNick then
      Reaction(s.(opAcquired := s.opAcquired[channel := false]), [Join(channel)])
    else
      Reaction(s, [])
  }

  /** The index of the first rule whose pattern matches `message`, if any. */
  function FirstMatch(rules: seq<Rule>, message: string, matches: (string, string) -> bool): (r: Option<nat>)
    ensures r.None? <==> forall i :: 0 <= i < |rules| ==> !matches(rules[i].pattern, message)
    ensures r.Some? ==> r.value < |rules| && matches(rules[r.value].pattern, message)
    ensures r.Some? ==> forall j :: 0 <= j < r.value ==> !matches(rules[j].pattern, message)
  {
    if rules == [] then None
    else if matches(rules[0].pattern, message) then Some(0)
    else
      var rest := FirstMatch(rules[1..], message, matches);
      assert forall i :: 1 <= i < |rules| ==> rules[i] == rules[1..][i - 1];
      if rest.None? then None else Some(rest.value + 1)
  }

  /** The sender is exempt from pattern kicks in `channel`: no op held, no policy, or listed in `kickIgnores`. */
  predicate MessageExempt(s: State, channel: ChannelId, nick: Nick) {
    !MayModerate(s, channel) || nick in PolicyOf(s, channel).value.kickIgnores
  }

  /** A channel message: unless the sender is exempt, the first kick rule (wildcard rules first,
      then the sender's) whose pattern matches the message kicks the sender with that rule's reason. */
  function OnMessage(s: State, channel: ChannelId, nick: Nick, message: string, matches: (string, string) -> bool): (r: seq<Command>)
    ensures MessageExempt(s, channel, nick) ==> r == []
    ensures |r| <= 1
    ensures !MessageExempt(s, channel, nick) ==>
              var rules := KickRules(PolicyOf(s, channel).value, nick);
              && (r == [] <==> forall i :: 0 <= i < |rules| ==> !matches(rules[i].pattern, message))
              && (r != [] ==> exists i :: 0 <= i < |rules| && matches(rules[i].pattern, message)
                                          && (forall j :: 0 <= j < i ==> !matches(rules[j].pattern, message))
                                          && r == [Kick(channel, nick, rules[i].KickReason())])
  {
    if MessageExempt(s, channel, nick) then []
    else
      var rules := KickRules(PolicyOf(s, channel).value, nick);
      var first := FirstMatch(rules, message, matches);
      if first.None? then []
      else
        var i := first.value;
        assert 0 <= i < |rules| && matches(rules[i].pattern, message);
        [Kick(channel, nick, rules[i].KickReason())]
  }

  /** One event, handled to completion. `matches(pattern, message)` stands for the regular-expression test. */
  function Step(s: State, e: Event, matches: (string, string) -> bool): (r: Reaction)
    ensures r.state.config == s.config && r.state.botNick == s.botNick
  {
    match e
    case Registered => Reaction(s, OnRegistered(s))
    case Joined(channel, nick, account, now) => OnJoin(s, channel, nick, account, now)
    case NickChanged(newNick) => OnNick(s, newNick)
    case ModesChanged(target, modes) => OnMode(s, target, modes)
    case UserList(channel, users) => OnUserList(s, channel, users)
    case Kicked(channel, kicked) => OnKick(s, channel, kicked)
    case Message(target, nick, message) => Reaction(s, OnMessage(s, target, nick, message, matches))
    case WhoisReply(nick, account) => OnWhoisReply(s, nick, account)
  }

  /** Events handled one at a time, in arrival order; the commands of all of them, in order. */
  function Run(s: State, events: seq<Event>, matches: (string, string) -> bool): (r: Reaction)
    decreases |events|
    ensures r.state.config == s.config && r.state.botNick == s.botNick
    ensures events == [] ==> r == Reaction(s, [])
  {
    if events == [] then Reaction(s, [])
    else
      var first := Step(s, events[0], matches);
      var rest := Run(first.state, events[1..], matches);
      Reaction(rest.state, first.commands + rest.commands)
  }

  /** Running two batches of events one after the other is running them as one: the second batch
      starts from the state the first left, and the commands come out in arrival order. */
  lemma {:induction false} RunAppend(s: State, a: seq<Event>, b: seq<Event>, matches: (string, string) -> bool)
    decreases |a|
    ensures var ra := Run(s, a, matches);
            var rb := Run(ra.state, b, matches);
            Run(s, a + b, matches) == Reaction(rb.state, ra.commands + rb.commands)
  {
    if a == [] {
      RunAfterNothing(s, b, matches);
    } else {
      RunAppend(Step(s, a[0], matches).state, a[1..], b, matches);
      RunAfterStep(s, a, b, matches);
    }
  }

  /** The step of `RunAppend`: appending `b` after the first event commutes with running the rest. */
  lemma RunAfterStep(s: State, a: seq<Event>, b: seq<Event>, matches: (string, string) -> bool)
    requires a != []
    requires var first := Step(s, a[0], matches);
             var ra := Run(first.state, a[1..], matches);
             var rb := Run(ra.state, b, matches);
             Run(first.state, a[1..] + b, matches) == Reaction(rb.state, ra.commands + rb.commands)
    ensures var ra := Run(s, a, matches);
            var rb := Run(ra.state, b, matches);
            Run(s, a + b, matches) == Reaction(rb.state, ra.commands + rb.commands)
  {
    var ab := a + b;
    AppendTail(a, b);
    var first := RunFirst(s, a, matches);
    var first' := RunFirst(s, ab, matches);
    var ra := Run(first.state, a[1..], matches);
    var rb := Run(ra.state, b, matches);
    assert Run(s, ab, matches) == Reaction(rb.state, first.commands + (ra.commands + rb.commands));
    AppendAssociative(first.commands, ra.commands, rb.commands);
  }

  /** A run preceded by no events is that run alone. */
  lemma RunAfterNothing(s: State, b: seq<Event>, matches: (string, string) -> bool)
    ensures var rb := Run(s, b, matches);
            Run(s, [] + b, matches) == Reaction(rb.state, [] + rb.commands)
  {
    var rb := Run(s, b, matches);
    assert [] + b == b && [] + rb.commands == rb.commands;
  }

  /** The first event of a non-empty run is stepped alone and the rest run from the state it leaves. */
  lemma RunFirst(s: State, events: seq<Event>, matches: (string, string) -> bool) returns (first: Reaction)
    requires events != []
    ensures first == Step(s, events[0], matches)
    ensures var rest := Run(first.state, events[1..], matches);
            Run(s, events, matches) == Reaction(rest.state, first.commands + rest.commands)
  {
    first := Step(s, events[0], matches);
  }

}
