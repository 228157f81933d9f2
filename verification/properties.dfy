/** Properties of the engine that relate several handlers or several events. */
module EngineProperties {
  import opened Optional
  import opened Seqs
  import opened Irc
  import opened Config
  import opened JoinFlood
  import opened Engine

  /** Every identity lookup in flight is one the policy of its channel asks for. */
  predicate Inv(s: State) {
    forall p :: p in s.pending ==> Sanctioned(s, p)
  }

  lemma InitInv(config: Configuration, botNick: Nick)
    ensures Inv(Init(config, botNick))
  {
  }

  /** An ordinary join adds at most the lookup `SetUserModes` asks for. */
  lemma JoinPreservesInv(s: State, channel: ChannelId, nick: Nick, account: Option<string>, now: int)
    requires Inv(s)
    ensures Inv(OnJoin(s, channel, nick, account, now).state)
  {
    var t := OnJoin(s, channel, nick, account, now).state;
    assert forall p :: Sanctioned(t, p) == Sanctioned(s, p);
  }

  /** A nick change adds only lookups the policies ask for. */
  lemma NickPreservesInv(s: State, newNick: Nick)
    requires Inv(s)
    ensures Inv(OnNick(s, newNick).state)
  {
    var t := OnNick(s, newNick).state;
    EverywhereLookups(s, s.config.channels, newNick);
    SameSanctions(s, t);
  }

  /** A user list adds only lookups the policy asks for. */
  lemma UserListPreservesInv(s: State, channel: ChannelId, users: seq<ListedUser>)
    requires Inv(s)
    ensures Inv(OnUserList(s, channel, users).state)
  {
    var t := OnUserList(s, channel, users).state;
    SameSanctions(s, t);
    if OpAcquired(s, channel) {
      UserListLookups(s, channel, users);
    }
  }

  /** A WHOIS reply only removes lookups. */
  lemma WhoisPreservesInv(s: State, nick: Nick, account: Option<string>)
    requires Inv(s)
    ensures Inv(OnWhoisReply(s, nick, account).state)
  {
    SameSanctions(s, OnWhoisReply(s, nick, account).state);
  }

  /** Handling any event keeps every lookup in flight sanctioned. */
  lemma StepPreservesInv(s: State, e: Event, matches: (string, string) -> bool)
    requires Inv(s)
    ensures Inv(Step(s, e, matches).state)
  {
    match e
    case Joined(channel, nick, account, now) => JoinPreservesInv(s, channel, nick, account, now);
    case NickChanged(newNick) => NickPreservesInv(s, newNick);
    case UserList(channel, users) => UserListPreservesInv(s, channel, users);
    case WhoisReply(nick, account) => WhoisPreservesInv(s, nick, account);
    case Registered =>
    case ModesChanged(target, modes) =>
    case Kicked(channel, kicked) =>
    case Message(target, nick, message) =>
  }

  /** Handling any sequence of events keeps every lookup in flight sanctioned. */
  lemma {:induction false} RunPreservesInv(s: State, events: seq<Event>, matches: (string, string) -> bool)
    requires Inv(s)
    ensures Inv(Run(s, events, matches).state)
    decreases |events|
  {
    if events != [] {
      StepPreservesInv(s, events[0], matches);
      RunPreservesInv(Step(s, events[0], matches).state, events[1..], matches);
    }
  }

  /** The only op grants are the bot's request for itself on its own join, and grants released by a
      WHOIS reply to a configured op of the channel identified to the account configured for it. */
  lemma OpGrantsAuthorised(s: State, e: Event, matches: (string, string) -> bool, ch: ChannelId, n: Nick)
    requires Inv(s)
    ensures Mode(ch, Op, n) in Step(s, e, matches).commands ==>
            || (e.Joined? && e.nick == s.botNick && n == s.botNick && ch == e.channel)
            || (&& e.WhoisReply? && e.nick == n
                && PolicyOf(s, ch).Some? && n in PolicyOf(s, ch).value.ops
                && e.account == Some(AccountFor(PolicyOf(s, ch).value.accounts, n)))
  {
    if Mode(ch, Op, n) !in Step(s, e, matches).commands {
      return;
    }
    match e
    case Joined(channel, nick, account, now) =>
    case NickChanged(newNick) =>
    case UserList(channel, users) =>
    case WhoisReply(nick, account) =>
      var p :| p in s.pending && p.nick == nick && account == Some(p.account) && Mode(ch, Op, n) == Mode(p.channel, Op, nick);
      assert Sanctioned(s, p);
    case Registered =>
    case ModesChanged(target, modes) =>
    case Kicked(channel, kicked) =>
    case Message(target, nick, message) =>
  }

  /** A configured op that joins while the bot holds op gets a WHOIS, and the reply reporting
      the account configured for it releases `+o` for it. */
  lemma IdentifiedOpGetsOp(s: State, ch: ChannelId, n: Nick, account: Option<string>, now: int)
    requires MayModerate(s, ch) && n != s.botNick
    requires n in PolicyOf(s, ch).value.ops && n !in PolicyOf(s, ch).value.kickOnJoin
    ensures var joined := OnJoin(s, ch, n, account, now);
            && Whois(n) in joined.commands
            && Mode(ch, Op, n) in OnWhoisReply(joined.state, n, Some(AccountFor(PolicyOf(s, ch).value.accounts, n))).commands
  {
    var modes := SetUserModes(s, ch, n, false, false);
    var joined := OnJoin(s, ch, n, account, now);
    assert joined.state.pending == modes.state.pending;
    assert PendingWhois(ch, n, AccountFor(PolicyOf(s, ch).value.accounts, n)) in joined.state.pending;
  }

  /** With no earlier lookup of `n` waiting, the confirming reply grants op exactly once, in `ch`. */
  lemma IdentifiedOpGetsOpOnce(s: State, ch: ChannelId, n: Nick, account: Option<string>, now: int)
    requires MayModerate(s, ch) && n != s.botNick
    requires n in PolicyOf(s, ch).value.ops && n !in PolicyOf(s, ch).value.kickOnJoin
    requires forall p :: p in s.pending ==> p.nick != n
    ensures var joined := OnJoin(s, ch, n, account, now);
            OnWhoisReply(joined.state, n, Some(AccountFor(PolicyOf(s, ch).value.accounts, n))).commands == [Mode(ch, Op, n)]
  {
    var lookup := ExpectedLookup(s, ch, n);
    var joined := OnJoin(s, ch, n, account, now);
    assert joined.state.pending == SetUserModes(s, ch, n, false, false).state.pending == s.pending + [lookup];
    forall x: PendingWhois | x.nick == n && x.account == lookup.account
      ensures multiset(joined.state.pending)[x] == if x == lookup then 1 else 0
    {
      assert x !in s.pending;
    }
    ConfirmedOnly(joined.state.pending, lookup, 1);
    Single(OnWhoisReply(joined.state, n, Some(lookup.account)).commands, Mode(ch, Op, n));
  }


  /** A configured op without op in a user list is looked up, and the confirming reply grants op. */
  lemma ListedOpGetsOp(s: State, ch: ChannelId, users: seq<ListedUser>, u: ListedUser)
    requires MayModerate(s, ch) && u in users
    requires u.nick in PolicyOf(s, ch).value.ops && "o" !in u.modes
    ensures var listed := OnUserList(s, ch, users);
            && Whois(u.nick) in listed.commands
            && Mode(ch, Op, u.nick) in OnWhoisReply(listed.state, u.nick, Some(AccountFor(PolicyOf(s, ch).value.accounts, u.nick))).commands
  {
    var listed := OnUserList(s, ch, users);
    var lookup := ExpectedLookup(s, ch, u.nick);
    assert WantsOp(s, ch, u.nick, "o" in u.modes) && lookup in listed.state.pending;
    assert lookup.nick == u.nick && lookup.channel == ch;
  }

  /** With no lookup of `n` waiting, the reply confirming a user list grants `+o` to `n` in `ch`
      once per entry of the list that shows `n` without op, and nothing else. */
  lemma ListedOpGrantsPerOccurrence(s: State, ch: ChannelId, users: seq<ListedUser>, n: Nick)
    requires MayModerate(s, ch) && n in PolicyOf(s, ch).value.ops
    requires forall p :: p in s.pending ==> p.nick != n
    ensures var listed := OnUserList(s, ch, users);
            var granted := OnWhoisReply(listed.state, n, Some(AccountFor(PolicyOf(s, ch).value.accounts, n))).commands;
            && |granted| == ListedWithoutOp(users, n)
            && forall c :: c in granted ==> c == Mode(ch, Op, n)
  {
    var lookup := ExpectedLookup(s, ch, n);
    var pending := OnUserList(s, ch, users).state.pending;
    forall x: PendingWhois | x.nick == n && x.account == lookup.account
      ensures multiset(pending)[x] == if x == lookup then ListedWithoutOp(users, n) else 0
    {
      assert x !in s.pending;
      assert ExpectsLookup(s, ch, x) <==> x == lookup;
    }
    ConfirmedOnly(pending, lookup, ListedWithoutOp(users, n));
  }

  /** When the only waiting lookup confirmed by a reply is `lookup`, waiting `k` times, the reply confirms exactly those `k`. */
  lemma ConfirmedOnly(pending: seq<PendingWhois>, lookup: PendingWhois, k: nat)
    requires forall x: PendingWhois :: x.nick == lookup.nick && x.account == lookup.account ==>
               multiset(pending)[x] == if x == lookup then k else 0
    ensures var c := Confirmed(pending, lookup.nick, Some(lookup.account));
            |c| == k && forall x :: x in c ==> x == lookup
  {
    var c := Confirmed(pending, lookup.nick, Some(lookup.account));
    assert forall x :: x in c ==> x == lookup by {
      forall x | x in c ensures x == lookup {
        assert multiset(c)[x] > 0;
      }
    }
    AllSame(c, lookup);
  }

  /** A configured op listed once without op, with no lookup of it waiting, gets exactly one `+o`. */
  lemma ListedOpGetsOpOnce(s: State, ch: ChannelId, users: seq<ListedUser>, u: ListedUser)
    requires MayModerate(s, ch) && u.nick in PolicyOf(s, ch).value.ops
    requires ListedWithoutOp(users, u.nick) == 1
    requires forall p :: p in s.pending ==> p.nick != u.nick
    ensures var listed := OnUserList(s, ch, users);
            OnWhoisReply(listed.state, u.nick, Some(AccountFor(PolicyOf(s, ch).value.accounts, u.nick))).commands
              == [Mode(ch, Op, u.nick)]
  {
    ListedOpGrantsPerOccurrence(s, ch, users, u.nick);
    var listed := OnUserList(s, ch, users);
    var granted := OnWhoisReply(listed.state, u.nick, Some(AccountFor(PolicyOf(s, ch).value.accounts, u.nick))).commands;
    Single(granted, Mode(ch, Op, u.nick));
  }

  /** A configured op who takes its nick is looked up, and the confirming reply grants op in that channel. */
  lemma RenamedOpGetsOp(s: State, ch: ChannelId, n: Nick)
    requires MayModerate(s, ch) && n in PolicyOf(s, ch).value.ops
    ensures var renamed := OnNick(s, n);
            && Whois(n) in renamed.commands
            && Mode(ch, Op, n) in OnWhoisReply(renamed.state, n, Some(AccountFor(PolicyOf(s, ch).value.accounts, n))).commands
  {
    var renamed := OnNick(s, n);
    var lookup := ExpectedLookup(s, ch, n);
    assert WantsOp(s, ch, n, false) && lookup in renamed.state.pending;
    assert lookup.nick == n && lookup.channel == ch;
  }

  /** Acquiring op is idempotent: a second identical mode change sends nothing and changes nothing. */
  lemma OpAcquisitionIdempotent(s: State, target: string, modes: seq<ModeChange>)
    ensures var first := OnMode(s, target, modes);
            OnMode(first.state, target, modes) == Reaction(first.state, [])
  {
    var first := OnMode(s, target, modes);
    assert GrantsBotOp(first.state, modes) == GrantsBotOp(s, modes);
  }

  /** Once the bot is kicked from a channel it stops moderating there until op is given back. */
  lemma KickedBotStopsModerating(s: State, ch: ChannelId, nick: Nick, message: string,
                                 users: seq<ListedUser>, matches: (string, string) -> bool)
    ensures var kicked := OnKick(s, ch, s.botNick).state;
            && OnMessage(kicked, ch, nick, message, matches) == []
            && OnUserList(kicked, ch, users) == Reaction(kicked, [])
            && SetUserModes(kicked, ch, nick, false, false) == Reaction(kicked, [])
  {
  }

  /** After a kick the bot rejoins, and the next `+o` for it in the channel re-acquires op and
      asks for the user list again. */
  lemma KickThenReop(s: State, ch: ChannelId)
    ensures var kicked := OnKick(s, ch, s.botNick);
            && kicked.commands == [Join(ch)]
            && OnMode(kicked.state, ch, [ModeChange("+o", Some(s.botNick))]).commands == [Names(ch)]
  {
    var kicked := OnKick(s, ch, s.botNick);
    assert ModeChange("+o", Some(s.botNick)) in [ModeChange("+o", Some(s.botNick))];
    assert GrantsBotOp(kicked.state, [ModeChange("+o", Some(s.botNick))]);
  }

  /** A join by anyone but the bot or a `kickOnJoin` user gets voice and a WHOIS as the policy grants them. */
  lemma OrdinaryJoinModes(s: State, ch: ChannelId, nick: Nick, account: Option<string>, now: int)
    requires PolicyOf(s, ch).Some? && nick != s.botNick && nick !in PolicyOf(s, ch).value.kickOnJoin
    ensures var r := OnJoin(s, ch, nick, account, now);
            && (Mode(ch, Voice, nick) in r.commands <==> WantsVoice(s, ch, nick, false))
            && (Whois(nick) in r.commands <==> WantsOp(s, ch, nick, false))
  {
    var policy := PolicyOf(s, ch).value;
    var modes := SetUserModes(s, ch, nick, false, false);
    var flood := BanOnSpamJoin(policy, ch, nick, account, now, modes.state.joins);
    assert OnJoin(s, ch, nick, account, now).commands == modes.commands + flood.commands;
  }

  /** A join by anyone but the bot or a `kickOnJoin` user goes through the flood check: an exempt
      joiner leaves the ledger as it was; otherwise only recent entries remain and the account is
      banned exactly when its recent joins, this one included, exceed the limit. */
  lemma OrdinaryJoinFlood(s: State, ch: ChannelId, nick: Nick, account: Option<string>, now: int)
    requires PolicyOf(s, ch).Some? && nick != s.botNick && nick !in PolicyOf(s, ch).value.kickOnJoin
    ensures var r := OnJoin(s, ch, nick, account, now);
            var policy := PolicyOf(s, ch).value;
            && (Exempt(policy, nick, account) ==> r.state.joins == s.joins && Kick(ch, nick, "") !in r.commands)
            && (!Exempt(policy, nick, account) ==>
                  var flood := policy.banAccountOnSpamJoin.value;
                  && (forall e :: e in r.state.joins ==> Recent(e, now, flood))
                  && (Mode(ch, Ban, BanMask(account.value)) in r.commands <==>
                        Count(Prune(s.joins, now, flood), account.value) + 1 > flood.maxJoins))
  {
    var policy := PolicyOf(s, ch).value;
    var modes := SetUserModes(s, ch, nick, false, false);
    assert modes.state.joins == s.joins;
    assert forall c :: c in modes.commands ==> c.Whois? || c.flag == Voice;
    var flood := BanOnSpamJoin(policy, ch, nick, account, now, s.joins);
    var r := OnJoin(s, ch, nick, account, now);
    assert r.commands == modes.commands + flood.commands && r.state.joins == flood.joins;
  }


  /** Four joins of one account within a minute under `intervalSeconds = 60, maxJoins = 3`: the first three
      are only recorded, the fourth bans the account, kicks the joiner and forgets the account's joins. */
  lemma FourthJoinWithinAMinuteBans(policy: ChannelPolicy, ch: ChannelId, nick: Nick, account: string,
                                    joins: seq<JoinEntry>, t0: int, t1: int, t2: int, t3: int)
    requires policy.banAccountOnSpamJoin == Some(FloodPolicy(60, 3))
    requires account != "" && nick !in policy.ops
    requires Count(joins, account) == 0
    requires t0 <= t1 <= t2 <= t3 <= t0 + 60000
    ensures var r0 := BanOnSpamJoin(policy, ch, nick, Some(account), t0, joins);
            var r1 := BanOnSpamJoin(policy, ch, nick, Some(account), t1, r0.joins);
            var r2 := BanOnSpamJoin(policy, ch, nick, Some(account), t2, r1.joins);
            var r3 := BanOnSpamJoin(policy, ch, nick, Some(account), t3, r2.joins);
            && r0.commands == [] && r1.commands == [] && r2.commands == []
            && r3.commands == [Mode(ch, Ban, BanMask(account)), Kick(ch, nick, "")]
            && Count(r3.joins, account) == 0
  {
    assert AccountSince(joins, account, t0) by {
      forall e | e in joins && e.account == account
        ensures false
      {
        CountPositive(joins, e);
      }
    }
    var r0 := RecordedJoin(policy, ch, nick, account, joins, t0, t0);
    var r1 := RecordedJoin(policy, ch, nick, account, r0, t0, t1);
    var r2 := RecordedJoin(policy, ch, nick, account, r1, t0, t2);
    RecentKeepsCount(r2, t3, FloodPolicy(60, 3), account, t0);
  }

  /** A join within the window of `t0` that does not reach the limit is recorded and nothing is sent.
      Returns the ledger after it. */
  lemma RecordedJoin(policy: ChannelPolicy, ch: ChannelId, nick: Nick, account: string,
                     joins: seq<JoinEntry>, t0: int, now: int) returns (after: seq<JoinEntry>)
    requires policy.banAccountOnSpamJoin.Some? && account != "" && nick !in policy.ops
    requires AccountSince(joins, account, t0) && t0 <= now && now - t0 <= policy.banAccountOnSpamJoin.value.WindowMillis()
    requires Count(joins, account) + 1 <= policy.banAccountOnSpamJoin.value.maxJoins
    ensures var r := BanOnSpamJoin(policy, ch, nick, Some(account), now, joins);
            && r.commands == [] && r.joins == after
    ensures Count(after, account) == Count(joins, account) + 1
    ensures AccountSince(after, account, t0)
  {
    var flood := policy.banAccountOnSpamJoin.value;
    RecentKeepsCount(joins, now, flood, account, t0);
    after := Prune(joins, now, flood) + [JoinEntry(account, now)];
    CountAppend(Prune(joins, now, flood), JoinEntry(account, now));
  }

  /** An entry of the ledger counts for its account. */
  lemma {:induction false} CountPositive(joins: seq<JoinEntry>, e: JoinEntry)
    requires e in joins
    ensures Count(joins, e.account) > 0
  {
    if joins[0] != e {
      CountPositive(joins[1..], e);
    }
  }

  /** Every entry of `account` in the ledger is from `t0` or later. */
  predicate AccountSince(joins: seq<JoinEntry>, account: string, t0: int) {
    forall e :: e in joins && e.account == account ==> e.timestamp >= t0
  }

  /** Pruning at `now` keeps every entry of an account whose entries all lie within the window. */
  lemma RecentKeepsCount(joins: seq<JoinEntry>, now: int, flood: FloodPolicy, account: string, t0: int)
    requires AccountSince(joins, account, t0) && now - t0 <= flood.WindowMillis()
    ensures Count(Prune(joins, now, flood), account) == Count(joins, account)
  {
    CountKeptWhereListed(joins, (e: JoinEntry) => !Recent(e, now, flood), account);
  }

  /** The wildcard rules are tried before the sender's: with wildcard rule `r1` and sender rule `r2`,
      a message that only `r2` matches kicks the sender once, with `r2`'s reason; an ignored sender
      is never kicked. */
  lemma SenderRuleKicks(s: State, ch: ChannelId, sender: Nick, message: string, matches: (string, string) -> bool,
                        r1: string, reason1: string, r2: string, reason2: string)
    requires MayModerate(s, ch) && sender != "*"
    requires PolicyOf(s, ch).value.kickPatterns == map["*" := [Pair(r1, Some(reason1))], sender := [Pair(r2, Some(reason2))]]
    requires !matches(r1, message) && matches(r2, message)
    ensures sender !in PolicyOf(s, ch).value.kickIgnores ==> OnMessage(s, ch, sender, message, matches) == [Kick(ch, sender, reason2)]
    ensures sender in PolicyOf(s, ch).value.kickIgnores ==> OnMessage(s, ch, sender, message, matches) == []
  {
    var rules := KickRules(PolicyOf(s, ch).value, sender);
    assert rules == [Pair(r1, Some(reason1)), Pair(r2, Some(reason2))];
    assert rules[1..] == [Pair(r2, Some(reason2))];
    assert FirstMatch(rules[1..], message, matches) == Some(0);
    assert FirstMatch(rules, message, matches) == Some(1);
  }

  /** A rule without a reason kicks with its pattern between slashes. */
  lemma DefaultReason(pattern: string)
    ensures Bare(pattern).KickReason() == "/" + pattern + "/"
    ensures Pair(pattern, None).KickReason() == "/" + pattern + "/"
    ensures forall reason :: Pair(pattern, Some(reason)).KickReason() == reason
  {
  }
}
