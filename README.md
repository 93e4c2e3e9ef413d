# Random-match Discord bot: matching engine and voice-channel lifecycle

This project models the in-memory core of a Discord bot (`bot.py`) that pairs
members at random and gives each pair a private voice channel. It also proves
properties of that model. The core has four parts:

- **Readiness queues.** There are two queues, both held in memory per guild:
  - `general_queues`: user -> `ready_at`.
  - `gender_queues`: a male bucket and a female bucket, each user -> `ready_at`.

  A join button adds the user with `ready_at = now + 60 s`. It leaves an
  existing entry untouched. The gender button first checks the member's roles:
  - neither role: refused;
  - both roles: refused;
  - otherwise: joins the bucket of the role held.

  `cancel_match` leaves the general queue. `queue_status` counts ready and
  waiting entries.
- **Pairing tick (`match_loop`).**
  - In the general queue, each guild's ready users are shuffled and popped
    two at a time.
  - In the gender queue, one male and one female are popped at a time until
    either side runs out.
  - Popped users leave the queue.
  - A channel is provisioned for each pair whose members the guild still
    knows, and a `VCState` is registered in `vc_states` under the new
    channel's id.
- **Voice-state handler.**
  - Any voice-state update that shows a member in a tracked voice channel
    latches `ever_joined`. This covers a join, and also a mute, deafen or
    stream toggle made inside the channel.
  - When such an update shows both matched users present at once, it also
    latches `both_joined`.
  - Leaving a channel that is now empty, after both users had been in it
    together, deletes the channel and forgets it.
- **Idle watchdog.** Every 30 s it forgets channels whose guild or voice
  channel is gone. It deletes and forgets channels that nobody ever entered,
  once they are at least five minutes old and still empty.

The model keeps the source's form:

- `MatchBot` is a class holding the three module-level dicts. Its methods
  update the dicts in place, and the pop loops are `while`/`for` loops.
- `VCState` is a class whose two flags the voice handler assigns.
- Each method is proved against pure specification functions, and the lemmas
  state what those functions promise:
  - `GeneralSweep` and `GenderSweep` for the queues;
  - `ProvisionAll` and the tick folds for `vc_states`;
  - `VoiceUpdate` and `Watchdog` for the lifecycle.
- `MatchBot.Sessions()` is the value view of `vc_states`: a map from channel
  id to a `Session` datatype.

Notable behaviours that are modelled as the code has them and stated as
lemmas:

- **A one-sided session is kept forever.** Suppose one user entered and left
  before the other came. The leave rule needs `both_joined`, and the watchdog
  needs `not ever_joined`. So the session is never reclaimed while its guild
  and channel exist (`Lifecycle.OneSidedSessionRetained`).
- **The general sweep pops users only if the guild resolves.**
  `bot.get_guild` is checked after the pairs are formed. When the guild does
  not resolve, the queue is left as it was.
- **A failed member lookup still costs the queue place.** Such a user is
  popped from the queue, but no channel is created for them.
- **A user can sit in both gender buckets.** The gender sweep does not check
  that a bucket pair is two people. A user who joined the male bucket and
  later, after a role change, the female bucket is in both. Pairs are proved
  disjoint only under the hypothesis that no user is ready in both buckets
  (`Pairing.GenderPairsNeverSelf`).

The surroundings are abstracted as inputs:

| Source | Model |
|---|---|
| Time | Whole seconds. |
| `random.shuffle` | An input list that arranges the ready set, in any order. |
| The order of dict iteration | An input list of the dict's keys. |
| `bot.get_guild`, `get_member`, the category and the channels | A `Platform` map. |
| `create_voice_channel` | A `Provisioner` function that yields the new channel's id or `None`. There is one for the general sweep and one for the gender sweep of a tick. |

## Model

| member | source | states |
|---|---|---|
| ReadyQueue.Join | bot.py:82-90 | An already queued user keeps their stored time and gets it back. Otherwise exactly their key is added, with `now + READY_DELAY_SECONDS`, and every other entry is unchanged. |
| ReadyQueue.JoinTwice | bot.py:82-90 | A second join of the same user, at any later time, changes nothing and answers "already queued". |
| ReadyQueue.Cancel | bot.py:329-333 | The user's key is removed, every other entry is kept unchanged, and the answer is true iff the user was queued. |
| ReadyQueue.CancelUndoesJoin | bot.py:329-333 | A cancel right after a join that added the user restores the bucket and reports a removal. |
| ReadyQueue.CancelTwice | bot.py:329-333 | A second cancel reports nothing removed and leaves the bucket unchanged. |
| ReadyQueue.StatusPartition | bot.py:345-352 | The ready and waiting sets are disjoint and cover the bucket, so the ready count plus the waiting count is the number of entries. |
| ReadyQueue.Admit | bot.py:115-132 | Neither role, or both roles, is refused. The male role alone admits to the male bucket and the female role alone to the female bucket; each case is stated both ways. |
| Pairing.GeneralPairs | bot.py:201-205 | The pairs the double-pop loop forms from the shuffled ready list, last entries first. There are `len(ready) // 2` of them. |
| Pairing.PairOff | bot.py:201-205 | The pop loop returns exactly `GeneralPairs(ready)`, which has `len(ready) // 2` pairs. |
| Pairing.GeneralPairsAt | bot.py:202-205 | Pair i holds the (2i+1)-th and (2i+2)-th entries counted from the end of the list. |
| Pairing.GeneralPairsDisjoint | bot.py:202-205 | From a list without repetitions, all users of all pairs are pairwise different. |
| Pairing.GeneralPairsUsers | bot.py:202-205 | The paired users are exactly the list without its first entry when the length is odd. |
| Pairing.GeneralPairsCount | bot.py:202-205 | From a list without repetitions, exactly 2 * (N // 2) different users are paired. |
| Pairing.PopReady | bot.py:210-211 | Popping ready users removes exactly those keys and lowers the size and the ready count by their number. Waiting users and all other entries are kept. |
| Pairing.GeneralSweep | bot.py:198-211 | The guild's general queue after its sweep. The paired users are removed only when at least two were ready and the guild resolved. It never adds a user; `GeneralSweepSummary` gives the full behaviour. |
| Pairing.GeneralSweepSummary | bot.py:197-211 | With N >= 2 ready users and a resolving guild: N // 2 disjoint pairs of ready users are formed and removed; waiting users and the N % 2 leftover stay. Otherwise the queue is unchanged. Surviving entries always keep their times. |
| Pairing.GenderPairs | bot.py:228-230 | The (male, female) pairs the gender loop forms, last entries first. There are `min(M, K)` of them. |
| Pairing.GenderPairsPop | bot.py:228-230 | One turn of the gender loop moves the two last entries, as a pair, from the pairs to come to the pairs formed. |
| Pairing.GenderPairsAt | bot.py:228-230 | The loop forms `min(M, K)` pairs, and pair i holds the (i+1)-th male and the (i+1)-th female from the end. |
| Pairing.GenderPairsSidesDistinct | bot.py:221-230 | From lists without repetitions, no male is paired twice and no female is paired twice. |
| Pairing.GenderPairsFirsts | bot.py:228-229 | The paired males are exactly the last `min(M, K)` entries of the male list. |
| Pairing.GenderPairsSeconds | bot.py:228-230 | The paired females are exactly the last `min(M, K)` entries of the female list. |
| Pairing.GenderPairsCount | bot.py:221-230 | From lists without repetitions, exactly `min(M, K)` different users are popped from each side. |
| Pairing.GenderSweep | bot.py:218-232 | The guild's gender buckets after its sweep. Paired males leave the male bucket and paired females the female bucket, only when both sides had someone ready and the guild resolved. Neither bucket gains a user; `GenderSweepSummary` gives the full behaviour. |
| Pairing.GenderSweepSummary | bot.py:218-232 | With M, K >= 1 ready and a resolving guild, `min(M, K)` pairs are formed, each a ready male with a ready female. Each user leaves only their own bucket, both sizes drop by `min(M, K)`, waiting users stay, and `abs(M - K)` ready users remain, all in the bucket that had more ready users; when M = K none remain. Otherwise both buckets are unchanged. |
| Pairing.GenderPairsNeverSelf | bot.py:221-230 | If no user is ready in both buckets, all users of all gender pairs are pairwise different. |
| Pairing.PopNextPair | bot.py:210-211 | Popping the next pair's two users is the same as removing the pairs formed so far plus that pair. |
| Pairing.PopNextGenderPair | bot.py:231-232 | Popping the next male and female is the same as removing the formed pairs' sides plus that pair. |
| Lifecycle.NewSession | bot.py:48-53 | A new session holds exactly the two matched users, the guild and the creation time, with both flags false. |
| Lifecycle.OnEnter | bot.py:277-286 | The join side of the voice handler: the flags of the channel in `after` move, and no channel is added or removed. |
| Lifecycle.OnLeave | bot.py:288-299 | The leave side of the voice handler: the channel in `before` is dropped when the leave rule holds, and no channel is added. |
| Lifecycle.VoiceUpdate | bot.py:276-299 | One voice-state event: the join side, then the leave side. It never adds a channel; `VoiceUpdateFlags` and `VoiceUpdateRemoves` give the full behaviour. |
| Lifecycle.VoiceUpdateFlags | bot.py:277-286 | Guild, members and creation time never change, and no flag is ever cleared. `ever_joined` is set iff the event shows the member in the voice channel afterwards: a join, or any other voice-state change (mute, deafen, stream) made inside it. `both_joined` is set iff such an event shows both users present. |
| Lifecycle.VoiceUpdateRemoves | bot.py:288-299 | An event never adds a session. It drops one iff it leaves that voice channel, the channel is then empty, and both users had been in it together. |
| Lifecycle.WatchdogDrops | bot.py:249-261 | The watchdog's test for one entry: guild gone, channel gone, or idle expired. An entry whose guild and channel exist is never dropped once someone joined it, nor while it is younger than five minutes. |
| Lifecycle.Watchdog | bot.py:248-266 | The registry after one watchdog tick: the entries `WatchdogDrops` selects are removed. It never adds a channel; `WatchdogExactly` gives the full behaviour. |
| Lifecycle.WatchdogPendingEnds | bot.py:248-266 | Before the watchdog's loop nothing has changed; once every entry was looked at, the tick is complete. |
| Lifecycle.WatchdogPendingStep | bot.py:248-266 | Looking at one more entry drops it iff `WatchdogDrops` holds, and leaves every other entry alone. |
| Lifecycle.WatchdogExactly | bot.py:248-266 | A tick drops an entry iff its guild or voice channel is gone, or nobody ever joined, five minutes have passed and the channel is empty. A failing delete does not keep the entry, and kept entries are unchanged. |
| Lifecycle.WatchdogSparesJoined | bot.py:259-261 | A session someone has joined is kept unchanged while its guild and channel exist. |
| Lifecycle.RunKeepsFlagsOrdered | bot.py:282-286 | Along any run of voice events and watchdog ticks, `both_joined` implies `ever_joined`. |
| Lifecycle.OneSidedSessionRetained | bot.py:259-294 | A session with `ever_joined` and not `both_joined` survives, unchanged, every run in which the two users are never present together and its guild and channel stay. |
| Lifecycle.MutualSessionScenario | bot.py:276-299 | A joins, B joins, A leaves: the channel is kept. B then leaves: it is dropped. |
| Lifecycle.OneSidedScenario | bot.py:276-299 | A joins and leaves before B comes: the session is kept with `ever_joined` only, and remains through any later run that keeps B away. |
| Lifecycle.IdleScenario | bot.py:259-266 | An empty, never-joined channel created at 0 is kept by a tick at 299 and dropped by any tick at 300 or later. |
| Naming.Truncate | bot.py:59-60 | `s[:n]` is a prefix of `s` of length `min(len(s), n)`, and is `s` itself when `s` is short enough. |
| Naming.VcNameFor | bot.py:58-61 | The name starts with "Match: ", its length is fixed by the two truncated parts, and it is never longer than 34 characters, within Discord's 100. |
| Naming.VcNameForParts | bot.py:58-61 | The first 12 characters of each display name stand at fixed positions, with " & " between them. |
| Naming.VcNameForShortNames | bot.py:58-61 | Display names of at most 12 characters appear in full. |
| Bot.StatusOf | bot.py:343-358 | The nine numbers of the status message. Each ready or waiting count is at most its line's total. |
| Bot.StatusReportAddsUp | bot.py:343-358 | In each of the three lines of the status message, ready plus waiting equals the total. |
| Bot.Provision | bot.py:148-181 | `create_private_vc_and_notify` once both members resolved. It never removes a channel, and when the category is missing or the creation fails it leaves `vc_states` as it was. |
| Bot.ProvisionPair | bot.py:212-215 | One popped pair: when both members resolve, `create_private_vc_and_notify` registers a fresh session under the new channel's id, if the category exists and the creation succeeded. It never removes a channel. |
| Bot.ProvisionAll | bot.py:209-215 | A guild's pairs, handled in order with `ProvisionPair`. It never removes a channel; `ProvisionAllExactly` says what it adds. |
| Bot.ProvisionAllAtMostOnePerPair | bot.py:209-215 | A guild's pairs register at most one channel each. |
| Bot.ProvisionAllSnoc | bot.py:209-215 | Handling one more pair applies that pair's creation to the sessions so far. |
| Bot.ProvisionAllExactly | bot.py:209-215 | A guild's pairs add exactly the created channels, each with a fresh session of a pair that got it. A pair whose lookup, category or creation fails leaves no trace, other entries are unchanged, and nothing is removed. |
| Bot.GeneralGuildSessions | bot.py:199-215 | One guild of the general sweep on `vc_states`: its pairs are provisioned only when at least two users are ready and the guild resolves. It never removes a channel; `GeneralGuildSessionsExactly` gives the gate. |
| Bot.GeneralGuildSessionsExactly | bot.py:199-215 | With at least two ready users and a resolving guild, exactly the channels created for its pairs are added. Otherwise `vc_states` is unchanged. |
| Bot.GenderGuildSessions | bot.py:223-236 | One guild of the gender sweep on `vc_states`: its pairs are provisioned only when both ready lists are non-empty and the guild resolves. It never removes a channel; `GenderGuildSessionsExactly` gives the gate. |
| Bot.GenderGuildSessionsExactly | bot.py:223-236 | With a ready male, a ready female and a resolving guild, exactly the channels created for its pairs are added. Otherwise `vc_states` is unchanged. |
| Bot.GeneralTickSessions | bot.py:197-215 | The general part of a tick on `vc_states`, guild by guild in the dict's order. It never drops a tracked channel. |
| Bot.GenderTickSessions | bot.py:218-236 | The gender part of a tick on `vc_states`, guild by guild in the dict's order. It never drops a tracked channel. |
| Bot.GeneralTickSessionsFresh | bot.py:197-215 | Every channel the general part of a tick adds holds a session of a swept guild, created at the tick's time, that nobody has entered yet. |
| Bot.GenderTickSessionsFresh | bot.py:218-236 | The same for the gender part of a tick. |
| Bot.DoublyQueuedPairScenario | bot.py:197-236 | Two users queued in the general queue and in opposite gender buckets are paired by both sweeps of one tick. When both creations succeed, they get two channels and two sessions. |
| Bot.GeneralTickQueues | bot.py:197-211 | The general queues after the sweeps of the guilds so far, in the dict's order. No guild's queue is added or dropped. |
| Bot.GeneralTickQueuesKeep | bot.py:197-211 | Sweeping guilds leaves the guilds not yet swept alone. |
| Bot.GeneralTickQueuesPerGuild | bot.py:197-211 | Sweeping distinct guilds in any order sweeps each swept guild's queue on its own. |
| Bot.GeneralTickQueuesAll | bot.py:197-211 | A whole tick, in whatever order the dict yields the guilds, is the per-guild `GeneralSweep` of every queue. |
| Bot.GenderTickQueues | bot.py:218-232 | The gender queues after the sweeps of the guilds so far, in the dict's order. No guild's buckets are added or dropped. |
| Bot.GenderTickQueuesKeep | bot.py:218-232 | As `GeneralTickQueuesKeep`, for the gender queues. |
| Bot.GenderTickQueuesPerGuild | bot.py:218-232 | As `GeneralTickQueuesPerGuild`, for the gender queues. |
| Bot.GenderTickQueuesAll | bot.py:218-232 | A whole tick is the per-guild `GenderSweep` of every guild's buckets. |
| Bot.VCState.constructor | bot.py:48-53 | A new `VCState` holds the guild, the two members and the creation time, with both flags false. |
| Bot.MatchBot.constructor | bot.py:40-55 | All three dicts start empty. |
| Bot.MatchBot.GeneralOf | bot.py:82 | What `general_queues.setdefault(g, {})` returns: the stored queue when the guild has one, otherwise an empty one. |
| Bot.MatchBot.GenderOf | bot.py:131 | What `gender_queues.setdefault(g, {"male": {}, "female": {}})` returns: the stored buckets when the guild has them, otherwise two empty ones. |
| Bot.MatchBot.JoinGeneral | bot.py:77-90 | Outside a guild, nothing changes. Otherwise the guild's queue becomes `Join` of its `setdefault` value, and the reply is the join's. |
| Bot.MatchBot.JoinGender | bot.py:107-140 | Outside a guild, or refused by `Admit`, the queues are unchanged and the refusal is answered. Otherwise `Join` runs on the admitted bucket only. |
| Bot.MatchBot.CancelMatch | bot.py:323-333 | Outside a guild, nothing changes. Otherwise the guild's queue becomes `Cancel` of its `setdefault` value, and the reply says whether the user was queued. |
| Bot.MatchBot.QueueStatus | bot.py:337-358 | Leaves the `setdefault` entries behind and reports `StatusOf` the guild's queues. |
| Bot.MatchBot.CreatePrivateVcAndNotify | bot.py:148-181 | Registers a fresh session under the new channel's id iff the category exists and the creation succeeded. |
| Bot.MatchBot.HandleGeneralPair | bot.py:209-215 | Pops both users and registers their channel iff both members resolve (`ProvisionPair`). |
| Bot.MatchBot.SweepGeneralGuild | bot.py:198-215 | The guild's queue becomes `GeneralSweep` and the sessions `GeneralGuildSessions`. |
| Bot.MatchBot.HandleGenderPair | bot.py:231-236 | Pops the male from the male bucket and the female from the female bucket, and registers their channel iff both resolve. |
| Bot.MatchBot.SweepGenderGuild | bot.py:219-236 | The guild's buckets become `GenderSweep` and the sessions `GenderGuildSessions`. |
| Bot.MatchBot.SweepGeneralNext | bot.py:197-215 | Sweeping the next guild of the iteration order extends the tick folds by that guild. |
| Bot.MatchBot.SweepGeneral | bot.py:197-215 | Every guild's queue becomes its `GeneralSweep`, and the sessions the guild-by-guild fold. |
| Bot.MatchBot.SweepGenderNext | bot.py:218-236 | As `SweepGeneralNext`, for the gender queues. |
| Bot.MatchBot.SweepGender | bot.py:218-236 | Every guild's buckets become their `GenderSweep`, and the sessions the guild-by-guild fold. |
| Bot.MatchBot.MatchLoop | bot.py:193-236 | One tick: the general sweep of every guild, then the gender sweep of every guild, on queues and sessions. Each sweep has its own creation outcomes, so a pair formed by both sweeps can get two channels. |
| Bot.MatchBot.CheckIdleVc | bot.py:249-266 | Drops the channel iff `WatchdogDrops` holds for it, and changes nothing else. |
| Bot.MatchBot.VcIdleWatchdogNext | bot.py:248-266 | One turn of the watchdog's loop: one channel still to inspect is checked and leaves the snapshot, and the sessions become the partial tick over the rest. |
| Bot.MatchBot.VcIdleWatchdog | bot.py:246-266 | The sessions become `Watchdog` of the sessions before the tick. |
| Bot.MatchBot.OnVoiceStateUpdate | bot.py:276-299 | The sessions become `VoiceUpdate` of the sessions before the event: the join side, then the leave side. |

## Left out

- The Discord API is not modelled: views and interaction responses, slash-command registration, permission overwrites, DMs and their texts, `on_ready`, and token and configuration loading. These are foreign calls or I/O. Only their outcomes enter the model, as the `Platform` map and the `Provisioner` function.
- `ch.delete()` is not modelled as a call. Both delete paths drop the entry whether the delete raised or not, so its outcome does not matter.
- The "remaining seconds" text of the "already queued" reply is not modelled, because it is display formatting. The reply carries the stored ready time instead.
- `datetime`, the JST timezone and `total_seconds()` are replaced by whole seconds, to avoid floating point.
- Concurrency is not modelled. Each button press, command, voice event, watchdog tick and pairing tick is one atomic step, with no interleaving at its `await` points.
- `random.shuffle` and the iteration order of dicts are not modelled as randomness. They are inputs: any arrangement of the ready set, and any order of the dict's keys.
- A session's `created_at` is the `now` of the tick that creates it. The source reads the clock again after the awaits that come before the creation.
- The gender queue has no cancel command in the source, so there is none in the model.
- The `isinstance(user, Member)` guard of the join buttons is folded into the `guild` option argument.
- The channel-type checks (`isinstance(..., CategoryChannel)` and `isinstance(..., VoiceChannel)`) are folded into `hasCategory`, the `voiceChannels` map and `ChannelView.isVoice`.
- The event-run lemmas (`RunKeepsFlagsOrdered`, `OneSidedSessionRetained`) cover voice events and watchdog ticks, not pairing ticks. A pairing tick only adds sessions (`GeneralTickSessions`, `GenderTickSessions`). The `Provisioner` is not required to return fresh ids, so the model allows a creation to overwrite a tracked entry, which Discord's unique snowflake ids never produce.
- The name given to the new channel (`vc_name_for`) is modelled on its own in `Naming`. The `Provisioner` does not take it as an argument, because the outcome of the creation does not depend on it in the model.
- Python slicing works on code points, and the model works on `seq<char>`, with no normalisation.
- Pairing.GenderPairsNeverSelf: the gender pairs are proved disjoint only when no user is ready in both buckets. The source does not prevent a user from being in both, after a role change between two joins.
