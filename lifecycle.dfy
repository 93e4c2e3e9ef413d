/** The lifecycle of an auto-created private voice channel, as values: the
    state the bot keeps per channel (`VCState`), how voice-state events move
    its two flags, when the leave handler and the idle watchdog drop it. */
module Lifecycle {
  import opened Common

  /** A channel nobody ever joined is deleted this long after creation. */
  const VC_IDLE_DELETE_SECONDS: int := 5 * 60

  /** The value of one `VCState`. */
  datatype Session = Session(
    guildId: GuildId,
    memberIds: set<UserId>,
    createdAt: Time,
    everJoined: bool,
    bothJoined: bool)

  /** `vc_states` as a value: channel id -> session. */
  type Registry = map<ChannelId, Session>

  /** A channel as a voice-state event shows it: its id, whether it is a voice
      channel, and the users in it at the time of the event. */
  datatype ChannelView = ChannelView(id: ChannelId, isVoice: bool, members: set<UserId>)

  /** What `bot.get_guild` finds: the guild's members (`get_member`), whether
      the match category exists, and its voice channels with their occupants. */
  datatype GuildView = GuildView(
    members: set<UserId>,
    hasCategory: bool,
    voiceChannels: map<ChannelId, set<UserId>>)

  /** The guilds the bot can resolve. */
  type Platform = map<GuildId, GuildView>

  /** The outcome of `create_voice_channel` for a pair: the new channel's id,
      or None when the call raised. */
  type Provisioner = (GuildId, UserId, UserId) -> Option<ChannelId>

  /** A freshly registered session: nobody has joined yet. */
  function NewSession(g: GuildId, m1: UserId, m2: UserId, now: Time): (s: Session)
    ensures s.memberIds == {m1, m2}
    ensures !s.everJoined && !s.bothJoined
    ensures s.guildId == g && s.createdAt == now
  {
    Session(g, {m1, m2}, now, false, false)
  }

  // ---------------------------------------------------------------------------
  // on_voice_state_update

  /** Someone is in the channel: `ever_joined` latches, and `both_joined`
      latches once both matched users are present. */
  function Entered(s: Session, present: set<UserId>): Session
  {
    s.(everJoined := true, bothJoined := s.bothJoined || s.memberIds <= present)
  }

  /** The join side of the handler, on `after.channel`. */
  function OnEnter(reg: Registry, after: Option<ChannelView>): (r: Registry)
    ensures r.Keys == reg.Keys
  {
    if after.Some? && after.value.id in reg && after.value.isVoice then
      reg[after.value.id := Entered(reg[after.value.id], after.value.members)]
    else reg
  }

  /** The leave rule: the channel is now empty and both users were once in it
      together. */
  predicate MeetingOver(s: Session, members: set<UserId>)
  {
    members == {} && s.bothJoined
  }

  /** The leave side of the handler, on `before.channel`. */
  function OnLeave(reg: Registry, before: Option<ChannelView>): (r: Registry)
    ensures r.Keys <= reg.Keys
  {
    if before.Some? && before.value.id in reg && before.value.isVoice
       && MeetingOver(reg[before.value.id], before.value.members)
    then reg - {before.value.id}
    else reg
  }

  /** One voice-state event: the join side runs first, then the leave side. */
  function VoiceUpdate(reg: Registry, before: Option<ChannelView>, after: Option<ChannelView>): (r: Registry)
    ensures r.Keys <= reg.Keys
  {
    OnLeave(OnEnter(reg, after), before)
  }

  /** The event shows the member in voice channel `id` afterwards: a join, or
      any other voice-state change (mute, deafen, stream) made inside it. */
  predicate ShowsIn(after: Option<ChannelView>, id: ChannelId)
  {
    after.Some? && after.value.id == id && after.value.isVoice
  }

  /** How one voice-state event moves a surviving session: the fixed fields
      stay; `ever_joined` is set exactly when the event shows the member in
      the channel; `both_joined` is set exactly when it does and both
      matched users are present; neither flag is ever cleared. */
  lemma VoiceUpdateFlags(reg: Registry, before: Option<ChannelView>, after: Option<ChannelView>, id: ChannelId)
    requires id in reg && id in VoiceUpdate(reg, before, after)
    ensures var s, s' := reg[id], VoiceUpdate(reg, before, after)[id];
            && s'.guildId == s.guildId && s'.memberIds == s.memberIds && s'.createdAt == s.createdAt
            && (s.everJoined ==> s'.everJoined)
            && (s.bothJoined ==> s'.bothJoined)
            && (s'.everJoined <==> s.everJoined || ShowsIn(after, id))
            && (s'.bothJoined <==> s.bothJoined || (ShowsIn(after, id) && s.memberIds <= after.value.members))
  {
  }

  /** A voice-state event drops a session exactly when the event leaves its
      voice channel, the channel is then empty, and both users had been in it
      together (counting this event's join side); it never adds one. */
  lemma VoiceUpdateRemoves(reg: Registry, before: Option<ChannelView>, after: Option<ChannelView>, id: ChannelId)
    requires id in reg
    ensures VoiceUpdate(reg, before, after).Keys <= reg.Keys
    ensures id !in VoiceUpdate(reg, before, after) <==>
      && before.Some? && before.value.id == id && before.value.isVoice
      && before.value.members == {}
      && (reg[id].bothJoined || (ShowsIn(after, id) && reg[id].memberIds <= after.value.members))
  {
  }

  // ---------------------------------------------------------------------------
  // vc_idle_watchdog

  /** Nobody ever joined, the idle time is up, and the channel is empty. */
  predicate IdleExpired(s: Session, members: set<UserId>, now: Time)
  {
    !s.everJoined && now - s.createdAt >= VC_IDLE_DELETE_SECONDS && members == {}
  }

  /** The watchdog drops an entry whose guild or voice channel is gone, or
      whose channel sat idle; a failing delete does not keep it. */
  predicate WatchdogDrops(id: ChannelId, s: Session, world: Platform, now: Time)
    ensures (s.guildId in world && id in world[s.guildId].voiceChannels
             && (s.everJoined || now - s.createdAt < VC_IDLE_DELETE_SECONDS))
            ==> !WatchdogDrops(id, s, world, now)
  {
    || s.guildId !in world
    || id !in world[s.guildId].voiceChannels
    || IdleExpired(s, world[s.guildId].voiceChannels[id], now)
  }

  /** The registry after one watchdog tick. */
  function Watchdog(reg: Registry, world: Platform, now: Time): (r: Registry)
    ensures r.Keys <= reg.Keys
  {
    map id | id in reg && !WatchdogDrops(id, reg[id], world, now) :: reg[id]
  }

  /** The registry part-way through a watchdog tick: the entries in
      `pending` have not been looked at yet. */
  function WatchdogPending(reg: Registry, world: Platform, now: Time, pending: set<ChannelId>): Registry
  {
    map id | id in reg && (id in pending || !WatchdogDrops(id, reg[id], world, now)) :: reg[id]
  }

  /** Before the tick nothing has changed; once every entry was looked at,
      the tick is complete. */
  lemma WatchdogPendingEnds(reg: Registry, world: Platform, now: Time)
    ensures WatchdogPending(reg, world, now, reg.Keys) == reg
    ensures WatchdogPending(reg, world, now, {}) == Watchdog(reg, world, now)
  {
    assert WatchdogPending(reg, world, now, reg.Keys).Keys == reg.Keys;
  }

  /** Looking at one more entry drops it or keeps it, by `WatchdogDrops`. */
  lemma WatchdogPendingStep(reg: Registry, world: Platform, now: Time, pending: set<ChannelId>, id: ChannelId)
    requires id in pending && id in reg
    ensures var cur := WatchdogPending(reg, world, now, pending);
            && id in cur && cur[id] == reg[id]
            && WatchdogPending(reg, world, now, pending - {id})
               == if WatchdogDrops(id, reg[id], world, now) then cur - {id} else cur
  {
    var cur := WatchdogPending(reg, world, now, pending);
    var next := WatchdogPending(reg, world, now, pending - {id});
    if WatchdogDrops(id, reg[id], world, now) {
      assert next.Keys == cur.Keys - {id};
    } else {
      assert next.Keys == cur.Keys;
    }
  }

  /** A watchdog tick removes exactly the entries it should and leaves every
      other entry as it was. */
  lemma WatchdogExactly(reg: Registry, world: Platform, now: Time, id: ChannelId)
    requires id in reg
    ensures Watchdog(reg, world, now).Keys <= reg.Keys
    ensures id !in Watchdog(reg, world, now) <==> WatchdogDrops(id, reg[id], world, now)
    ensures id in Watchdog(reg, world, now) ==> Watchdog(reg, world, now)[id] == reg[id]
  {
  }

  /** Once someone has joined, the idle path no longer applies: the watchdog
      keeps the entry as long as its guild and voice channel exist. */
  lemma WatchdogSparesJoined(reg: Registry, world: Platform, now: Time, id: ChannelId)
    requires id in reg && reg[id].everJoined
    requires reg[id].guildId in world && id in world[reg[id].guildId].voiceChannels
    ensures id in Watchdog(reg, world, now) && Watchdog(reg, world, now)[id] == reg[id]
  {
  }

  // ---------------------------------------------------------------------------
  // Runs of events

  /** `both_joined` is only ever set together with or after `ever_joined`. */
  predicate FlagsOrdered(reg: Registry)
  {
    forall id :: id in reg ==> (reg[id].bothJoined ==> reg[id].everJoined)
  }

  /** The events that move the registry between sweeps. */
  datatype Event =
    | VoiceState(before: Option<ChannelView>, after: Option<ChannelView>)
    | WatchdogTick(world: Platform, now: Time)

  function Step(reg: Registry, e: Event): Registry
  {
    match e
    case VoiceState(before, after) => VoiceUpdate(reg, before, after)
    case WatchdogTick(world, now) => Watchdog(reg, world, now)
  }

  function Run(reg: Registry, events: seq<Event>): Registry
    decreases |events|
  {
    if events == [] then reg else Run(Step(reg, events[0]), events[1..])
  }

  /** Every event keeps the flag order, along a whole run. */
  lemma {:induction false} RunKeepsFlagsOrdered(reg: Registry, events: seq<Event>)
    requires FlagsOrdered(reg)
    ensures FlagsOrdered(Run(reg, events))
    decreases |events|
  {
    if events != [] {
      var next := Step(reg, events[0]);
      forall id | id in next
        ensures next[id].bothJoined ==> next[id].everJoined
      {
        match events[0]
        case VoiceState(before, after) =>
          VoiceUpdateFlags(reg, before, after, id);
        case WatchdogTick(world, now) =>
      }
      RunKeepsFlagsOrdered(next, events[1..]);
    }
  }

  /** The event neither shows both matched users of `s` together in channel
      `id`, nor (for a watchdog tick) finds the guild or the channel gone. */
  predicate NeitherMeetsNorVanishes(id: ChannelId, s: Session, e: Event)
  {
    match e
    case VoiceState(_, after) => ShowsIn(after, id) ==> !(s.memberIds <= after.value.members)
    case WatchdogTick(world, _) => s.guildId in world && id in world[s.guildId].voiceChannels
  }

  /** The retained-session edge case: a session that someone joined but that
      never had both users in it at once is never reclaimed, neither by the
      leave rule (it needs `both_joined`) nor by the watchdog (it needs
      `not ever_joined`), for as long as its guild and channel exist. */
  lemma {:induction false} OneSidedSessionRetained(reg: Registry, events: seq<Event>, id: ChannelId)
    requires id in reg && reg[id].everJoined && !reg[id].bothJoined
    requires forall k :: 0 <= k < |events| ==> NeitherMeetsNorVanishes(id, reg[id], events[k])
    ensures id in Run(reg, events) && Run(reg, events)[id] == reg[id]
    decreases |events|
  {
    if events != [] {
      var next := Step(reg, events[0]);
      assert NeitherMeetsNorVanishes(id, reg[id], events[0]);
      match events[0] {
        case VoiceState(before, after) =>
          VoiceUpdateRemoves(reg, before, after, id);
          VoiceUpdateFlags(reg, before, after, id);
          assert next[id] == reg[id];
        case WatchdogTick(world, now) =>
          WatchdogSparesJoined(reg, world, now, id);
      }
      forall k | 0 <= k < |events[1..]|
        ensures NeitherMeetsNorVanishes(id, next[id], events[1..][k])
      {
        assert events[1..][k] == events[k + 1];
      }
      OneSidedSessionRetained(next, events[1..], id);
    }
  }

  // ---------------------------------------------------------------------------
  // Scenarios of one channel's life

  /** Channel S for (A, B): A joins, B joins, A leaves (B still there: kept),
      B leaves (empty after both met: dropped). */
  lemma MutualSessionScenario(reg: Registry, s: ChannelId, g: GuildId, a: UserId, b: UserId)
    requires a != b
    requires reg == map[s := NewSession(g, a, b, 0)]
    ensures var r1 := VoiceUpdate(reg, None, Some(ChannelView(s, true, {a})));
            var r2 := VoiceUpdate(r1, None, Some(ChannelView(s, true, {a, b})));
            var r3 := VoiceUpdate(r2, Some(ChannelView(s, true, {b})), None);
            var r4 := VoiceUpdate(r3, Some(ChannelView(s, true, {})), None);
            && s in r1 && r1[s].everJoined && !r1[s].bothJoined
            && s in r2 && r2[s].bothJoined
            && s in r3
            && s !in r4
  {
  }

  /** Channel S for (A, B): A joins and leaves before B comes. S is left with
      `ever_joined` and without `both_joined`, and from then on nothing that
      keeps B away and the channel alive ever removes it. */
  lemma OneSidedScenario(reg: Registry, s: ChannelId, g: GuildId, a: UserId, b: UserId, later: seq<Event>)
    requires a != b
    requires reg == map[s := NewSession(g, a, b, 0)]
    requires forall k :: 0 <= k < |later| ==>
      NeitherMeetsNorVanishes(s, Session(g, {a, b}, 0, true, false), later[k])
    ensures var r2 := Run(reg, [VoiceState(None, Some(ChannelView(s, true, {a}))),
                                VoiceState(Some(ChannelView(s, true, {})), None)]);
            && s in r2 && r2[s] == Session(g, {a, b}, 0, true, false)
            && s in Run(r2, later)
  {
    var e0 := VoiceState(None, Some(ChannelView(s, true, {a})));
    var e1 := VoiceState(Some(ChannelView(s, true, {})), None);
    var r1 := Step(reg, e0);
    assert b !in {a};
    assert r1 == map[s := Session(g, {a, b}, 0, true, false)];
    var r2 := Step(r1, e1);
    assert r2 == r1;
    assert Run(reg, [e0, e1]) == Run(r1, [e1]) by {
      assert [e0, e1][1..] == [e1];
    }
    assert Run(r1, [e1]) == r2 by {
      assert [e1][1..] == [];
    }
    OneSidedSessionRetained(r2, later, s);
  }

  /** Channel S created at 0 that nobody joins: a watchdog tick at 299 keeps
      it, the first tick at 300 or later with the channel empty drops it. */
  lemma IdleScenario(reg: Registry, s: ChannelId, g: GuildId, a: UserId, b: UserId, world: Platform, t: Time)
    requires reg == map[s := NewSession(g, a, b, 0)]
    requires g in world && s in world[g].voiceChannels && world[g].voiceChannels[s] == {}
    ensures s in Watchdog(reg, world, 299)
    ensures t >= 300 ==> s !in Watchdog(reg, world, t)
  {
  }
}
