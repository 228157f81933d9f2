# bncr moderation engine, modelled in Dafny

bncr is an IRC bot that joins its configured channels, acquires channel-operator status and then
enforces a per-channel policy. The policy covers auto-voice and auto-op (op only after a WHOIS
identity check), kick-on-join lists, regular-expression message kicks, and banning an account
that joins too often. This project models that policy engine in `src/index.js` as a deterministic
state machine. Each protocol event is a pure function from a state to a new state plus the
sequence of IRC commands it sends: JOIN, MODE, KICK and NAMES (section 3.2 of RFC 2812) and WHOIS
(section 3.6.2 of RFC 2812).

Files and modules:

- `optional.dfy` (`Optional`): `Option`, standing for JavaScript's `undefined`.
- `seqs.dfy` (`Seqs`): `Reject`, lodash's `_.reject`.
- `irc.dfy` (`Irc`): the outgoing commands and the `$a:` account ban mask.
- `config.dfy` (`Config`): the channel policy, the default-filling of a parsed configuration
  (`getConfig`), first-match lookups, the account a nick must be identified to, and the kick rule list.
- `join_flood.dfy` (`JoinFlood`): the global join ledger and `banAccountOnSpamJoin`.
- `engine.dfy` (`Engine`): the state (configuration, bot nick, the `isOpAcquired` map, the join
  ledger, WHOIS lookups in flight), `setUserModes`, one function per handler, `Step` and `Run`.
- `properties.dfy` (`EngineProperties`): properties that span several handlers or events.

The asynchronous `irc.whois(nick, callback)` is modelled as a `Whois(nick)` command plus a
`PendingWhois` entry. The entry records the channel, the nick and the account the callback
compares against; that account is taken from the channel policy at request time, as the closure
captures it. A later `WhoisReply(nick, account)` event resolves every pending lookup for that nick,
in request order. This matches how the client library dispatches a WHOIS reply to every waiting
callback for the nick. The callback does not look at `isOpAcquired` again, and neither does the
model. Channels are kept as a sequence of `(id, policy)` pairs in file order, because
`onRegistered` and `onNick` iterate over the channel object in insertion order.

Two behaviours of the code that the model keeps as written:

- Not every privileged action waits until op has been acquired. `setUserModes` checks
  `isOpAcquired` (src/index.js:67-70), but `onJoin` kicks a `kickOnJoin` user and runs the
  join-flood ban and kick without that check (src/index.js:177-189). The `+o` a WHOIS reply
  releases is not checked either (src/index.js:79-92), so it can be sent after the bot has lost op
  in the meantime. `OpGrantsAuthorised` states exactly which events can produce an op grant.
- The join ledger `joins` is one list for the whole process, not one per channel
  (src/index.js:126). It is pruned with the window of the channel being joined, so joins to every
  channel with a flood policy count together.

## Model

| member | source | states |
|---|---|---|
| Config.Normalise | src/index.js:25-37 | `watchConfig` defaults to true; a missing channel table list means no channels; every channel keeps its id and position and gets its table with defaults filled |
| Config.NormaliseChannel | src/index.js:28-36 | each present list or map field is kept as given and each missing one becomes empty; the flood policy is passed through, and absent means disabled |
| Config.NormaliseChannelIdempotent | src/index.js:28-36 | filling defaults a second time changes nothing |
| Config.NormaliseKeepsChannels | src/index.js:28-36 | a channel has a policy after normalisation exactly when the file has a table for it, and the policy is that table with defaults filled |
| Config.Find | src/index.js:80-83 | the lookup finds nothing exactly when no entry has the key; otherwise it returns the value of the first entry with the key |
| Config.AccountFor | src/index.js:80-84 | the account to compare against is the first `accounts` override for the nick, or the nick itself when there is none |
| Config.KickRules | src/index.js:250-253 | the wildcard rules come first and the sender's own rules form the tail; with neither present there are no rules |
| Config.KickRulesLength | src/index.js:250-253 | the rule list is exactly as long as the wildcard list plus the sender's list, so nothing else is in it |
| Seqs.Reject | src/index.js:145-147 | the result holds exactly the elements not selected, each with its original multiplicity |
| JoinFlood.Prune | src/index.js:145-147 | every kept entry is inside the window; every entry inside the window is kept, with its multiplicity; none outside is kept |
| JoinFlood.Purge | src/index.js:162 | no entry of the account remains, and every entry of another account is kept with its multiplicity |
| JoinFlood.CountAppend | src/index.js:149-154 | appending an entry raises its own account's count by one and no other account's count |
| JoinFlood.BanOnSpamJoin | src/index.js:128-164 | exempt joins (no policy, no or empty account, joiner is an op) change nothing; otherwise only recent entries remain and other accounts' counts are unchanged; the ban and kick are sent exactly when the account's recent joins, this one included, exceed `maxJoins`, and then its entries are gone while every recent entry of another account is kept with its multiplicity; if not, the join is recorded and nothing is sent |
| Engine.SetUserModes | src/index.js:67-99 | nothing happens unless op is acquired and the channel has a policy; a WHOIS is sent iff the nick is a configured op not yet holding op, and a lookup with the expected account is recorded; `+v` is sent iff the nick is configured voiced and not yet voiced; op is never granted directly; each command at most once, and WHOIS before `+v` when both are sent |
| Engine.Grants | src/index.js:79-92 | a reply grants `+o` in a channel exactly for the pending lookups of that nick whose expected account equals the reported one |
| Engine.GrantsConfirmed | src/index.js:79-92 | one `+o` per pending lookup of the nick that expects the reported account, in the order the lookups were made |
| Engine.OnWhoisReply | src/index.js:79-92 | the lookups of the nick are answered and removed and all others kept; op is granted exactly where the account matches, once per matching lookup and in request order; a reply that matches no lookup sends nothing |
| Engine.OnRegistered | src/index.js:116-124 | one JOIN per configured channel, in file order; a JOIN is sent for a channel iff it is configured |
| Engine.OnJoin | src/index.js:166-191 | an unconfigured channel is ignored; the bot's own join only requests `+o` for itself; a `kickOnJoin` user gets exactly one KICK with an empty reason, with no mode command and the ledger unchanged; no join grants op to anyone but the bot; only a lookup `setUserModes` asks for is added |
| Engine.SetModesEverywhere | src/index.js:194-196 | the per-channel pass of a nick change alters only the pending lookups, and keeps every lookup already pending as a prefix |
| Engine.EverywhereCommands | src/index.js:193-197 | the nick-change pass sends `+v` in exactly the listed channels where the nick is due voice, and at least one WHOIS (one per channel where it is due op) iff it is due op in one of them |
| Engine.EverywhereLookups | src/index.js:193-197 | every lookup the nick-change pass adds is for the new nick and sanctioned by its channel's policy |
| Engine.EverywhereLookupsComplete | src/index.js:193-197 | every listed channel where the nick is due op gets a lookup expecting the account configured for the nick |
| Engine.OnNick | src/index.js:193-197 | the new nick gets `+v` in exactly the configured channels where it is due voice, and at least one WHOIS (one per channel where it is due op) iff it is due op somewhere; each channel where it is due op gets a lookup expecting its configured account, and every added lookup is for the new nick and sanctioned; only lookups change |
| Engine.OnMode | src/index.js:199-209 | a `+o` for the bot records op as acquired for the target; NAMES is sent iff this is the first acquisition; otherwise nothing changes |
| Engine.SetModesForUsers | src/index.js:216-220 | the per-user pass of a user list alters only the pending lookups, and keeps every lookup already pending as a prefix |
| Engine.UserListCommands | src/index.js:216-220 | the user-list pass sends only WHOIS and `+v`; WHOIS for a nick iff a listed user with that nick lacks `o` and is a configured op; `+v` iff such a user lacks `v` and is configured voiced |
| Engine.UserListLookups | src/index.js:216-220 | every lookup the user-list pass adds is sanctioned by the channel's policy |
| Engine.UserListLookupsComplete | src/index.js:216-220 | every listed user due op gets a lookup expecting the account configured for its nick |
| Engine.UserListLookupsCount | src/index.js:216-220 | the user-list pass records the expected lookup for a nick due op once per entry listing that nick without op, and adds no other lookup |
| Engine.UserListAllPrivileged | src/index.js:216-220 | a user list whose users all hold `o` and `v` sends nothing and changes nothing |
| Engine.OnUserList | src/index.js:211-221 | nothing happens without op acquired; users with both `o` and `v` cause no command; WHOIS and `+v` go to exactly the users due them; every user due op gets a lookup expecting its configured account, once per entry listing it without op, and every added lookup is sanctioned |
| Engine.OnKick | src/index.js:223-231 | a kick of the bot clears op acquisition for that channel and sends JOIN; every other channel keeps its flag; a kick of anyone else changes nothing |
| Engine.FirstMatch | src/index.js:254-269 | finds nothing iff no rule's pattern matches; otherwise returns the index of a matching rule with no match before it |
| Engine.OnMessage | src/index.js:233-270 | nothing is sent without op, without a policy, or for a `kickIgnores` sender; at most one KICK; a KICK is sent iff some rule matches, using the first matching rule's reason |
| Engine.Step | src/index.js:272-282 | no event changes the configuration or the bot's nick |
| Engine.Run | src/index.js:284-289 | the configuration and bot nick never change; no events send nothing |
| Engine.RunAppend | src/index.js:284-289 | events are handled one at a time in arrival order: running two batches in turn is running them as one, the second starting from the state the first left and the commands concatenated |
| EngineProperties.StepPreservesInv | src/index.js:78-92 | after any event, every lookup in flight is for a configured op of its channel and expects the account configured for it |
| EngineProperties.RunPreservesInv | src/index.js:284-289 | the same holds after any sequence of events |
| EngineProperties.OpGrantsAuthorised | src/index.js:78-92 | the only `+o` commands are the bot's request for itself on its own join, and grants released by a WHOIS reply for a configured op reporting the account configured for it |
| EngineProperties.IdentifiedOpGetsOp | src/index.js:173-191 | a configured op joining while the bot holds op gets a WHOIS, and the reply reporting the configured account releases `+o` for it |
| EngineProperties.IdentifiedOpGetsOpOnce | src/index.js:79-92 | with no earlier lookup of the nick pending, the confirming reply after its join sends exactly one `+o`, in the joined channel |
| EngineProperties.ListedOpGetsOp | src/index.js:211-220 | a configured op listed without `o` in a user list gets a WHOIS, and the reply reporting the configured account releases `+o` for it |
| EngineProperties.ListedOpGrantsPerOccurrence | src/index.js:78-92 | with no lookup of the nick waiting, the reply confirming a user list sends `+o` for it in that channel exactly once per entry listing it without op, and nothing else |
| EngineProperties.ListedOpGetsOpOnce | src/index.js:211-220 | a configured op listed once without op, with no lookup of it waiting, gets exactly one `+o` from the confirming reply |
| EngineProperties.RenamedOpGetsOp | src/index.js:193-197 | a user who takes the nick of a configured op gets a WHOIS, and the reply reporting the configured account releases `+o` in that channel |
| EngineProperties.OpAcquisitionIdempotent | src/index.js:199-208 | a repeated identical mode change sends nothing and changes nothing |
| EngineProperties.KickedBotStopsModerating | src/index.js:223-231 | after the bot is kicked from a channel, messages, user lists and mode setting there send nothing |
| EngineProperties.KickThenReop | src/index.js:223-231 | after a kick the bot rejoins, and the next `+o` for it re-acquires op and requests NAMES |
| EngineProperties.OrdinaryJoinModes | src/index.js:183 | a join by an ordinary user sends `+v` iff it is due voice and WHOIS iff it is due op |
| EngineProperties.OrdinaryJoinFlood | src/index.js:185-189 | an exempt joiner leaves the ledger alone and is not kicked; otherwise only recent entries remain and the ban is sent iff the account's recent joins, this one included, exceed the limit |
| EngineProperties.FourthJoinWithinAMinuteBans | src/index.js:145-163 | with a 60-second window and a limit of 3, the first three joins within a minute are only recorded; the fourth bans, kicks and forgets the account |
| EngineProperties.RecordedJoin | src/index.js:149-163 | a join below the limit is recorded with its account's count up by one and nothing is sent |
| EngineProperties.SenderRuleKicks | src/index.js:246-268 | with one wildcard rule and one sender rule, a message only the sender rule matches gets exactly one KICK with that rule's reason; an ignored sender gets none |
| EngineProperties.DefaultReason | src/index.js:257-263 | a rule without an explicit reason kicks with `/pattern/`, and an explicit reason is used as given |

## Left out

- Reading `config.toml`, TOML parsing, the file watcher and reload (src/index.js:14-23, 40-50) are file I/O and a foreign parser. Only the default-filling of an already parsed file is modelled, and the configuration never changes during a run.
- Client construction, the randomised reconnect delay and `irc.connect()` (src/index.js:52-63, 291) are network plumbing.
- `onClose` and `onConnecting` (src/index.js:106-114) only log and exit the process.
- The promise queue (src/index.js:284-289) only exists to serialise handlers; `Run` handles events one at a time.
- JavaScript regular expressions (src/index.js:265) are represented by the `matches(pattern, message)` parameter. A pattern that `RegExp` rejects would throw and abort the handler; that case is not modelled.
- `new Date()` is represented by the `now` millisecond field of the join event. `console.log` output is not modelled.
- The bot's own nick is fixed. The client library updates it on a nick change, which is not modelled.
- Nicks are compared exactly. The client library matches WHOIS replies to callbacks case-insensitively.
- The join event's account field and the list of modes in a NAMES reply come from the client library's parsing, which is not part of this model.
- JoinFlood.BanOnSpamJoin: `intervalSeconds` and `maxJoins` are natural numbers. A flood table with a missing, negative or fractional field is not modelled.
- Engine.OnNick: how many lookups the nick-change pass records per channel is not stated; each channel due op is shown to get its lookup, and every added lookup is sanctioned, but exactly-once grants are stated only for joins and user lists.
- Config.Normalise: a configuration that names the same channel twice is not excluded; `PolicyOf` uses the first entry. A TOML parser rejects a table defined twice, so such a file never parses.
- Config.Normalise: configuration values of the wrong type are not modelled, for example an `ops` field that is present but falsy, or an `accounts` entry with fewer than two elements. Nor are nicks that name built-in JavaScript object properties in `kickPatterns`.
