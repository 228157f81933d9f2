/** The join-flood tracker: a ledger of recent joins per account that bans an account joining too often. */
module JoinFlood {
  import opened Optional
  import opened Seqs
  import opened Irc
  import opened Config

  /** One recorded join: the joiner's account and the time of the join in milliseconds. */
  datatype JoinEntry = JoinEntry(account: string, timestamp: int)

  /** The ledger after a join and the commands the join triggered. */
  datatype FloodResult = FloodResult(joins: seq<JoinEntry>, commands: seq<Command>)

  /** An entry still inside the policy's window at time `now`. */
  predicate Recent(e: JoinEntry, now: int, flood: FloodPolicy) {
    now - e.timestamp <= flood.WindowMillis()
  }

  /** The number of ledger entries for `account`. */
  function Count(joins: seq<JoinEntry>, account: string): nat {
    if joins == [] then 0
    else (if joins[0].account == account then 1 else 0) + Count(joins[1..], account)
  }

  /** The ledger without the entries that have left the window. */
  function Prune(joins: seq<JoinEntry>, now: int, flood: FloodPolicy): (r: seq<JoinEntry>)
    ensures forall e :: e in r ==> Recent(e, now, flood)
    ensures forall e :: Recent(e, now, flood) ==> multiset(r)[e] == multiset(joins)[e]
    ensures forall e :: !Recent(e, now, flood) ==> e !in r
  {
    Reject(joins, (e: JoinEntry) => !Recent(e, now, flood))
  }

  /** The ledger without any entry for `account`. */
  function Purge(joins: seq<JoinEntry>, account: string): (r: seq<JoinEntry>)
    ensures Count(r, account) == 0
    ensures forall b :: b != account ==> Count(r, b) == Count(joins, b)
    ensures forall e :: e in r ==> e in joins && e.account != account
    ensures forall e :: multiset(r)[e] == if e.account == account then 0 else multiset(joins)[e]
  {
    var drop := (e: JoinEntry) => e.account == account;
    var r := Reject(joins, drop);
    CountRejected(joins, drop, account);
    forall b | b != account {
      CountKeptWhereListed(joins, drop, b);
    }
    r
  }

  /** A join is exempt from the flood check when the channel has no flood policy, the joiner
      is not identified to an account (or to the empty one), or the joiner is a configured op. */
  predicate Exempt(policy: ChannelPolicy, nick: Nick, account: Option<string>) {
    || policy.banAccountOnSpamJoin.None?
    || account.None?
    || account.value == ""
    || nick in policy.ops
  }

  /** Records the join of `nick` (identified to `account`) in `channel` at time `now`; when the
      account has now joined more than `maxJoins` times within the window, bans and kicks it
      and forgets its entries. */
  function BanOnSpamJoin(policy: ChannelPolicy, channel: ChannelId, nick: Nick, account: Option<string>,
                         now: int, joins: seq<JoinEntry>): (r: FloodResult)
    ensures Exempt(policy, nick, account) ==> r == FloodResult(joins, [])
    ensures forall c :: c in r.commands ==> c == Mode(channel, Ban, BanMask(account.value)) || c == Kick(channel, nick, "")
    ensures !Exempt(policy, nick, account) ==>
              var flood := policy.banAccountOnSpamJoin.value;
              var recent := Prune(joins, now, flood);
              && (forall e :: e in r.joins ==> Recent(e, now, flood))
              && (forall b :: b != account.value ==> Count(r.joins, b) == Count(recent, b))
              && if Count(recent, account.value) + 1 > flood.maxJoins then
                   && r.commands == [Mode(channel, Ban, BanMask(account.value)), Kick(channel, nick, "")]
                   && Count(r.joins, account.value) == 0
                   && (forall e: JoinEntry :: e.account != account.value ==> multiset(r.joins)[e] == multiset(recent)[e])
                 else
                   && r.commands == []
                   && r.joins == recent + [JoinEntry(account.value, now)]
  {
    if Exempt(policy, nick, account) then FloodResult(joins, [])
    else
      var flood := policy.banAccountOnSpamJoin.value;
      var entry := JoinEntry(account.value, now);
      var appended := Prune(joins, now, flood) + [entry];
      CountAppend(Prune(joins, now, flood), entry);
      if Count(appended, account.value) > flood.maxJoins then
        PurgeAfterJoin(Prune(joins, now, flood), entry);
        FloodResult(Purge(appended, account.value),
                    [Mode(channel, Ban, BanMask(account.value)), Kick(channel, nick, "")])
      else
        FloodResult(appended, [])
  }

  /** Purging the joiner after its own join leaves every other account's entries as they were before it. */
  lemma PurgeAfterJoin(joins: seq<JoinEntry>, entry: JoinEntry)
    ensures var r := Purge(joins + [entry], entry.account);
            && Count(r, entry.account) == 0
            && (forall b :: b != entry.account ==> Count(r, b) == Count(joins, b))
            && (forall e: JoinEntry :: e.account != entry.account ==> multiset(r)[e] == multiset(joins)[e])
            && (forall e :: e in r ==> e in joins)
  {
    CountAppend(joins, entry);
    assert forall e: JoinEntry :: e.account != entry.account ==> multiset(joins + [entry])[e] == multiset(joins)[e];
  }

  /** Appending an entry adds one to its account's count and nothing to any other's. */
  lemma {:induction false} CountAppend(joins: seq<JoinEntry>, e: JoinEntry)
    ensures forall b :: Count(joins + [e], b) == Count(joins, b) + (if e.account == b then 1 else 0)
  {
    if joins != [] {
      CountAppend(joins[1..], e);
      assert (joins + [e])[1..] == joins[1..] + [e];
    }
  }

  /** Rejecting every entry of `account` leaves none of them. */
  lemma {:induction false} CountRejected(joins: seq<JoinEntry>, drop: JoinEntry -> bool, account: string)
    requires forall e: JoinEntry :: e.account == account ==> drop(e)
    ensures Count(Reject(joins, drop), account) == 0
  {
    if joins != [] {
      CountRejected(joins[1..], drop, account);
    }
  }

  /** Rejecting no listed entry of `account` keeps all of them. */
  lemma {:induction false} CountKeptWhereListed(joins: seq<JoinEntry>, drop: JoinEntry -> bool, account: string)
    requires forall e :: e in joins && e.account == account ==> !drop(e)
    ensures Count(Reject(joins, drop), account) == Count(joins, account)
  {
    if joins != [] {
      CountKeptWhereListed(joins[1..], drop, account);
    }
  }
}
