/** The bot's in-memory state and its handlers: the join buttons, the cancel
    and status commands, the pairing tick `match_loop`, the idle watchdog and
    the voice-state handler. Each handler or tick runs as one atomic step. */
module Bot {
  import opened Common
  import opened ReadyQueue
  import opened Pairing
  import opened Lifecycle

  // ---------------------------------------------------------------------------
  // Replies

  /** Replies of the two join buttons. */
  datatype JoinResponse =
    | NotInGuild
    | NotAdmitted(why: Admission)
    | Replied(reply: JoinReply)

  /** Replies of `cancel_match`. */
  datatype CancelResponse = CancelNotInGuild | Cancelled | NotQueued

  /** The numbers `queue_status` prints. */
  datatype StatusReport = StatusReport(
    generalTotal: nat, generalReady: nat, generalWaiting: nat,
    maleTotal: nat, maleReady: nat, maleWaiting: nat,
    femaleTotal: nat, femaleReady: nat, femaleWaiting: nat)

  datatype StatusResponse = StatusNotInGuild | Report(report: StatusReport)

  function StatusOf(gq: Bucket, gg: GenderQueues, now: Time): (r: StatusReport)
    ensures r.generalReady <= r.generalTotal && r.generalWaiting <= r.generalTotal
    ensures r.maleReady <= r.maleTotal && r.maleWaiting <= r.maleTotal
    ensures r.femaleReady <= r.femaleTotal && r.femaleWaiting <= r.femaleTotal
  {
    StatusPartition(gq, now);
    StatusPartition(gg.male, now);
    StatusPartition(gg.female, now);
    StatusReport(
      |gq|, ReadyCount(gq, now), WaitingCount(gq, now),
      |gg.male|, ReadyCount(gg.male, now), WaitingCount(gg.male, now),
      |gg.female|, ReadyCount(gg.female, now), WaitingCount(gg.female, now))
  }

  /** In every line of the status message, ready plus waiting is the total. */
  lemma StatusReportAddsUp(gq: Bucket, gg: GenderQueues, now: Time)
    ensures var r := StatusOf(gq, gg, now);
            && r.generalReady + r.generalWaiting == r.generalTotal
            && r.maleReady + r.maleWaiting == r.maleTotal
            && r.femaleReady + r.femaleWaiting == r.femaleTotal
  {
    StatusPartition(gq, now);
    StatusPartition(gg.male, now);
    StatusPartition(gg.female, now);
  }

  // ---------------------------------------------------------------------------
  // Which sessions a sweep registers

  /** `create_private_vc_and_notify` once both members resolved: with the
      match category present and the channel created, a fresh session is
      stored under the new channel's id (replacing whatever was there, as the
      dict assignment does); otherwise `vc_states` is left alone. */
  function Provision(reg: Registry, g: GuildId, m1: UserId, m2: UserId, hasCategory: bool, created: Option<ChannelId>, now: Time): (r: Registry)
    ensures reg.Keys <= r.Keys
    ensures created.None? || !hasCategory ==> r == reg
  {
    if hasCategory && created.Some? then reg[created.value := NewSession(g, m1, m2, now)] else reg
  }

  /** The sweep's member lookups for one popped pair, then the creation. */
  function ProvisionPair(reg: Registry, g: GuildId, p: Pair, guild: GuildView, create: Provisioner, now: Time): (r: Registry)
    ensures reg.Keys <= r.Keys
  {
    if p.0 in guild.members && p.1 in guild.members then
      Provision(reg, g, p.0, p.1, guild.hasCategory, create(g, p.0, p.1), now)
    else reg
  }

  /** A guild's pairs, handled in order. */
  function ProvisionAll(reg: Registry, g: GuildId, pairs: seq<Pair>, guild: GuildView, create: Provisioner, now: Time): (r: Registry)
    ensures reg.Keys <= r.Keys
    decreases |pairs|
  {
    if pairs == [] then reg
    else ProvisionPair(ProvisionAll(reg, g, pairs[..|pairs| - 1], guild, create, now), g, pairs[|pairs| - 1], guild, create, now)
  }

  /** Each pair registers at most one channel. */
  lemma {:induction false} ProvisionAllAtMostOnePerPair(reg: Registry, g: GuildId, pairs: seq<Pair>, guild: GuildView, create: Provisioner, now: Time)
    ensures |ProvisionAll(reg, g, pairs, guild, create, now)| <= |reg| + |pairs|
    decreases |pairs|
  {
    if pairs != [] {
      ProvisionAllAtMostOnePerPair(reg, g, pairs[..|pairs| - 1], guild, create, now);
    }
  }

  lemma ProvisionAllSnoc(reg: Registry, g: GuildId, ps: seq<Pair>, p: Pair, guild: GuildView, create: Provisioner, now: Time)
    ensures ProvisionAll(reg, g, ps + [p], guild, create, now)
         == ProvisionPair(ProvisionAll(reg, g, ps, guild, create, now), g, p, guild, create, now)
  {
    assert (ps + [p])[..|ps|] == ps;
  }

  lemma ProvisionAllStep(reg: Registry, g: GuildId, ps: seq<Pair>, i: nat, guild: GuildView, create: Provisioner, now: Time)
    requires i < |ps|
    ensures ProvisionAll(reg, g, ps[..i + 1], guild, create, now)
         == ProvisionPair(ProvisionAll(reg, g, ps[..i], guild, create, now), g, ps[i], guild, create, now)
  {
    assert ps[..i + 1] == ps[..i] + [ps[i]];
    ProvisionAllSnoc(reg, g, ps[..i], ps[i], guild, create, now);
  }

  /** Pair `p` resolves, the category exists, and its channel is `id`. */
  predicate CreatedBy(g: GuildId, p: Pair, guild: GuildView, create: Provisioner, id: ChannelId)
  {
    p.0 in guild.members && p.1 in guild.members && guild.hasCategory && create(g, p.0, p.1) == Some(id)
  }

  /** Some pair of the guild got channel `id`. */
  predicate Creates(g: GuildId, pairs: seq<Pair>, guild: GuildView, create: Provisioner, id: ChannelId)
  {
    exists p :: p in pairs && CreatedBy(g, p, guild, create, id)
  }

  /** A guild's registrations: exactly the created channels are added; each
      holds a fresh session of a pair that got it; every other entry stays as
      it was. A pair whose member lookup, category or creation fails leaves no
      trace, and nothing is ever removed. */
  lemma {:induction false} ProvisionAllExactly(reg: Registry, g: GuildId, pairs: seq<Pair>, guild: GuildView, create: Provisioner, now: Time)
    ensures var r := ProvisionAll(reg, g, pairs, guild, create, now);
            && (forall id :: id in r <==> id in reg || Creates(g, pairs, guild, create, id))
            && (forall id :: id in reg && !Creates(g, pairs, guild, create, id) ==> r[id] == reg[id])
            && (forall id :: Creates(g, pairs, guild, create, id) ==>
                  exists p :: p in pairs && CreatedBy(g, p, guild, create, id) && r[id] == NewSession(g, p.0, p.1, now))
    decreases |pairs|
  {
    if pairs != [] {
      var init, last := pairs[..|pairs| - 1], pairs[|pairs| - 1];
      var r0 := ProvisionAll(reg, g, init, guild, create, now);
      var r := ProvisionAll(reg, g, pairs, guild, create, now);
      ProvisionAllExactly(reg, g, init, guild, create, now);
      assert pairs == init + [last];
      forall id
        ensures Creates(g, pairs, guild, create, id) <==> Creates(g, init, guild, create, id) || CreatedBy(g, last, guild, create, id)
      {
        if Creates(g, pairs, guild, create, id) {
          var p :| p in pairs && CreatedBy(g, p, guild, create, id);
          if p != last {
            assert p in init;
          }
        }
        if Creates(g, init, guild, create, id) {
          var p :| p in init && CreatedBy(g, p, guild, create, id);
          assert p in pairs;
        }
      }
      forall id | Creates(g, pairs, guild, create, id)
        ensures exists p :: p in pairs && CreatedBy(g, p, guild, create, id) && r[id] == NewSession(g, p.0, p.1, now)
      {
        if !CreatedBy(g, last, guild, create, id) {
          var p :| p in init && CreatedBy(g, p, guild, create, id) && r0[id] == NewSession(g, p.0, p.1, now);
          assert p in pairs;
        }
      }
    }
  }

  /** One guild of the general sweep, on `vc_states`. */
  function GeneralGuildSessions(reg: Registry, g: GuildId, shuffled: seq<UserId>, platform: Platform, create: Provisioner, now: Time): (r: Registry)
    ensures reg.Keys <= r.Keys
  {
    if |shuffled| >= 2 && g in platform then ProvisionAll(reg, g, GeneralPairs(shuffled), platform[g], create, now) else reg
  }

  /** One guild of the gender sweep, on `vc_states`. */
  function GenderGuildSessions(reg: Registry, g: GuildId, sm: seq<UserId>, sf: seq<UserId>, platform: Platform, create: Provisioner, now: Time): (r: Registry)
    ensures reg.Keys <= r.Keys
  {
    if |sm| >= 1 && |sf| >= 1 && g in platform then ProvisionAll(reg, g, GenderPairs(sm, sf), platform[g], create, now) else reg
  }

  /** One guild's general sweep on `vc_states`: with at least two ready users
      and a resolving guild, exactly the channels created for its pairs are
      added; otherwise nothing changes. */
  lemma GeneralGuildSessionsExactly(reg: Registry, g: GuildId, shuffled: seq<UserId>, platform: Platform, create: Provisioner, now: Time)
    ensures var r := GeneralGuildSessions(reg, g, shuffled, platform, create, now);
            && (|shuffled| >= 2 && g in platform ==>
                  forall id :: id in r <==> id in reg || Creates(g, GeneralPairs(shuffled), platform[g], create, id))
            && (!(|shuffled| >= 2 && g in platform) ==> r == reg)
  {
    if |shuffled| >= 2 && g in platform {
      ProvisionAllExactly(reg, g, GeneralPairs(shuffled), platform[g], create, now);
    }
  }

  /** The same for one guild's gender sweep, gated on both ready lists being
      non-empty. */
  lemma GenderGuildSessionsExactly(reg: Registry, g: GuildId, sm: seq<UserId>, sf: seq<UserId>, platform: Platform, create: Provisioner, now: Time)
    ensures var r := GenderGuildSessions(reg, g, sm, sf, platform, create, now);
            && (|sm| >= 1 && |sf| >= 1 && g in platform ==>
                  forall id :: id in r <==> id in reg || Creates(g, GenderPairs(sm, sf), platform[g], create, id))
            && (!(|sm| >= 1 && |sf| >= 1 && g in platform) ==> r == reg)
  {
    if |sm| >= 1 && |sf| >= 1 && g in platform {
      ProvisionAllExactly(reg, g, GenderPairs(sm, sf), platform[g], create, now);
    }
  }

  /** The general part of a tick on `vc_states`, guild by guild. It only ever
      adds sessions: every channel tracked before is still tracked after. */
  function GeneralTickSessions(reg: Registry, order: seq<GuildId>, shuffles: map<GuildId, seq<UserId>>,
                               platform: Platform, create: Provisioner, now: Time): (r: Registry)
    requires forall g :: g in order ==> g in shuffles
    ensures reg.Keys <= r.Keys
    decreases |order|
  {
    if order == [] then reg
    else
      var g := order[|order| - 1];
      GeneralGuildSessions(GeneralTickSessions(reg, order[..|order| - 1], shuffles, platform, create, now),
                           g, shuffles[g], platform, create, now)
  }

  /** The gender part of a tick on `vc_states`, guild by guild; it too only
      ever adds sessions. */
  function GenderTickSessions(reg: Registry, order: seq<GuildId>,
                              maleShuffles: map<GuildId, seq<UserId>>, femaleShuffles: map<GuildId, seq<UserId>>,
                              platform: Platform, create: Provisioner, now: Time): (r: Registry)
    requires forall g :: g in order ==> g in maleShuffles && g in femaleShuffles
    ensures reg.Keys <= r.Keys
    decreases |order|
  {
    if order == [] then reg
    else
      var g := order[|order| - 1];
      GenderGuildSessions(GenderTickSessions(reg, order[..|order| - 1], maleShuffles, femaleShuffles, platform, create, now),
                          g, maleShuffles[g], femaleShuffles[g], platform, create, now)
  }

  /** Every channel the general part of a tick adds holds a fresh session of
      one of the swept guilds, created at the tick's time, that nobody has
      entered yet. */
  lemma {:induction false} GeneralTickSessionsFresh(reg: Registry, order: seq<GuildId>, shuffles: map<GuildId, seq<UserId>>,
                                                    platform: Platform, create: Provisioner, now: Time)
    requires forall g :: g in order ==> g in shuffles
    ensures var r := GeneralTickSessions(reg, order, shuffles, platform, create, now);
            forall id :: id in r && id !in reg ==> r[id].guildId in order && r[id].createdAt == now && !r[id].everJoined
    decreases |order|
  {
    if order != [] {
      var init, g := order[..|order| - 1], order[|order| - 1];
      var prev := GeneralTickSessions(reg, init, shuffles, platform, create, now);
      GeneralTickSessionsFresh(reg, init, shuffles, platform, create, now);
      var next := GeneralGuildSessions(prev, g, shuffles[g], platform, create, now);
      assert GeneralTickSessions(reg, order, shuffles, platform, create, now) == next;
      if |shuffles[g]| >= 2 && g in platform {
        var pairs := GeneralPairs(shuffles[g]);
        ProvisionAllExactly(prev, g, pairs, platform[g], create, now);
        forall id | id in next && id !in reg
          ensures next[id].guildId in order && next[id].createdAt == now && !next[id].everJoined
        {
          if Creates(g, pairs, platform[g], create, id) {
            var p :| p in pairs && CreatedBy(g, p, platform[g], create, id) && next[id] == NewSession(g, p.0, p.1, now);
          } else {
            assert next[id] == prev[id];
          }
        }
      }
    }
  }

  /** The same for the gender part of a tick. */
  lemma {:induction false} GenderTickSessionsFresh(reg: Registry, order: seq<GuildId>,
                                                   maleShuffles: map<GuildId, seq<UserId>>, femaleShuffles: map<GuildId, seq<UserId>>,
                                                   platform: Platform, create: Provisioner, now: Time)
    requires forall g :: g in order ==> g in maleShuffles && g in femaleShuffles
    ensures var r := GenderTickSessions(reg, order, maleShuffles, femaleShuffles, platform, create, now);
            forall id :: id in r && id !in reg ==> r[id].guildId in order && r[id].createdAt == now && !r[id].everJoined
    decreases |order|
  {
    if order != [] {
      var init, g := order[..|order| - 1], order[|order| - 1];
      var prev := GenderTickSessions(reg, init, maleShuffles, femaleShuffles, platform, create, now);
      GenderTickSessionsFresh(reg, init, maleShuffles, femaleShuffles, platform, create, now);
      var next := GenderGuildSessions(prev, g, maleShuffles[g], femaleShuffles[g], platform, create, now);
      assert GenderTickSessions(reg, order, maleShuffles, femaleShuffles, platform, create, now) == next;
      if |maleShuffles[g]| >= 1 && |femaleShuffles[g]| >= 1 && g in platform {
        var pairs := GenderPairs(maleShuffles[g], femaleShuffles[g]);
        ProvisionAllExactly(prev, g, pairs, platform[g], create, now);
        forall id | id in next && id !in reg
          ensures next[id].guildId in order && next[id].createdAt == now && !next[id].everJoined
        {
          if Creates(g, pairs, platform[g], create, id) {
            var p :| p in pairs && CreatedBy(g, p, platform[g], create, id) && next[id] == NewSession(g, p.0, p.1, now);
          } else {
            assert next[id] == prev[id];
          }
        }
      }
    }
  }

  /** Two users queued in the general queue and in opposite gender buckets
      are paired by both sweeps of one tick, and get two channels when both
      creations succeed. */
  lemma DoublyQueuedPairScenario(now: Time, createGeneral: Provisioner, createGender: Provisioner)
    requires createGeneral(5, 1, 2) == Some(7) && createGender(5, 1, 2) == Some(8)
    ensures var platform := map[5 := GuildView({1, 2}, true, map[])];
            var afterGeneral := GeneralTickSessions(map[], [5], map[5 := [2, 1]], platform, createGeneral, now);
            var afterGender := GenderTickSessions(afterGeneral, [5], map[5 := [1]], map[5 := [2]], platform, createGender, now);
            afterGender == map[7 := NewSession(5, 1, 2, now), 8 := NewSession(5, 1, 2, now)]
  {
    var platform := map[5 := GuildView({1, 2}, true, map[])];
    assert GeneralPairs([2, 1]) == [(1, 2)] by {
      assert [2, 1][..0] == [];
    }
    assert GenderPairs([1], [2]) == [(1, 2)] by {
      assert [1][..0] == [] && [2][..0] == [];
    }
    assert [5][..0] == [];
    assert [(1, 2)][..0] == [];
    var afterGeneral := GeneralTickSessions(map[], [5], map[5 := [2, 1]], platform, createGeneral, now);
    assert afterGeneral == map[7 := NewSession(5, 1, 2, now)];
  }

  // ---------------------------------------------------------------------------
  // What a tick does to the queues

  /** `sm` and `sf` are the two ready lists of a guild's gender buckets, each
      in the order `random.shuffle` left it. */
  predicate GenderShuffled(b: GenderQueues, sm: seq<UserId>, sf: seq<UserId>, now: Time)
  {
    Arranges(sm, ReadySet(b.male, now)) && Arranges(sf, ReadySet(b.female, now))
  }

  /** `shuffles` holds, for every guild with a general queue, its ready list
      in the order `random.shuffle` left it. */
  predicate GeneralShuffledAll(qs: map<GuildId, Bucket>, shuffles: map<GuildId, seq<UserId>>, now: Time)
  {
    forall g :: g in qs ==> g in shuffles && Arranges(shuffles[g], ReadySet(qs[g], now))
  }

  /** The same for the two buckets of every guild's gender queue. */
  predicate GenderShuffledAll(qs: map<GuildId, GenderQueues>, maleShuffles: map<GuildId, seq<UserId>>,
                              femaleShuffles: map<GuildId, seq<UserId>>, now: Time)
  {
    forall g :: g in qs ==> g in maleShuffles && g in femaleShuffles && GenderShuffled(qs[g], maleShuffles[g], femaleShuffles[g], now)
  }

  /** The general queues after the sweeps of the guilds in `done`, in order;
      no guild's queue is added or dropped. */
  function GeneralTickQueues(qs: map<GuildId, Bucket>, done: seq<GuildId>, shuffles: map<GuildId, seq<UserId>>, platform: Platform): (r: map<GuildId, Bucket>)
    requires forall g :: g in done ==> g in shuffles
    ensures r.Keys == qs.Keys
    decreases |done|
  {
    if done == [] then qs
    else
      var g := done[|done| - 1];
      var prev := GeneralTickQueues(qs, done[..|done| - 1], shuffles, platform);
      if g in prev then prev[g := GeneralSweep(prev[g], shuffles[g], g in platform)] else prev
  }

  /** Sweeping guilds leaves the queues of guilds not yet swept alone. */
  lemma {:induction false} GeneralTickQueuesKeep(qs: map<GuildId, Bucket>, done: seq<GuildId>, shuffles: map<GuildId, seq<UserId>>, platform: Platform)
    requires forall g :: g in done ==> g in shuffles
    ensures forall g :: g in qs && g !in done ==> GeneralTickQueues(qs, done, shuffles, platform)[g] == qs[g]
    decreases |done|
  {
    if done != [] {
      GeneralTickQueuesKeep(qs, done[..|done| - 1], shuffles, platform);
      assert done == done[..|done| - 1] + [done[|done| - 1]];
    }
  }

  /** Sweeping each guild once, in any order, sweeps every guild's queue on
      its own: the order the dict yields the guilds in does not matter. */
  lemma {:induction false} GeneralTickQueuesPerGuild(qs: map<GuildId, Bucket>, done: seq<GuildId>, shuffles: map<GuildId, seq<UserId>>, platform: Platform)
    requires Distinct(done)
    requires forall g :: g in done ==> g in shuffles
    ensures GeneralTickQueues(qs, done, shuffles, platform)
         == map g | g in qs :: if g in done then GeneralSweep(qs[g], shuffles[g], g in platform) else qs[g]
    decreases |done|
  {
    if done != [] {
      var init, last := done[..|done| - 1], done[|done| - 1];
      assert done == init + [last];
      assert Distinct(init);
      GeneralTickQueuesPerGuild(qs, init, shuffles, platform);
      assert last !in init;
    }
  }

  /** A whole tick sweeps every guild's general queue exactly once. */
  lemma GeneralTickQueuesAll(qs: map<GuildId, Bucket>, order: seq<GuildId>, shuffles: map<GuildId, seq<UserId>>, platform: Platform)
    requires Arranges(order, qs.Keys)
    requires forall g :: g in order ==> g in shuffles
    ensures GeneralTickQueues(qs, order, shuffles, platform)
         == map g | g in qs :: GeneralSweep(qs[g], shuffles[g], g in platform)
  {
    GeneralTickQueuesPerGuild(qs, order, shuffles, platform);
  }

  /** The gender queues after the sweeps of the guilds in `done`, in order;
      no guild's buckets are added or dropped. */
  function GenderTickQueues(qs: map<GuildId, GenderQueues>, done: seq<GuildId>,
                            maleShuffles: map<GuildId, seq<UserId>>, femaleShuffles: map<GuildId, seq<UserId>>, platform: Platform): (r: map<GuildId, GenderQueues>)
    requires forall g :: g in done ==> g in maleShuffles && g in femaleShuffles
    ensures r.Keys == qs.Keys
    decreases |done|
  {
    if done == [] then qs
    else
      var g := done[|done| - 1];
      var prev := GenderTickQueues(qs, done[..|done| - 1], maleShuffles, femaleShuffles, platform);
      if g in prev then prev[g := GenderSweep(prev[g], maleShuffles[g], femaleShuffles[g], g in platform)] else prev
  }

  lemma {:induction false} GenderTickQueuesKeep(qs: map<GuildId, GenderQueues>, done: seq<GuildId>,
                                                maleShuffles: map<GuildId, seq<UserId>>, femaleShuffles: map<GuildId, seq<UserId>>, platform: Platform)
    requires forall g :: g in done ==> g in maleShuffles && g in femaleShuffles
    ensures forall g :: g in qs && g !in done ==> GenderTickQueues(qs, done, maleShuffles, femaleShuffles, platform)[g] == qs[g]
    decreases |done|
  {
    if done != [] {
      GenderTickQueuesKeep(qs, done[..|done| - 1], maleShuffles, femaleShuffles, platform);
      assert done == done[..|done| - 1] + [done[|done| - 1]];
    }
  }

  /** As for the general queue, the gender sweep of a tick is per guild. */
  lemma {:induction false} GenderTickQueuesPerGuild(qs: map<GuildId, GenderQueues>, done: seq<GuildId>,
                                                    maleShuffles: map<GuildId, seq<UserId>>, femaleShuffles: map<GuildId, seq<UserId>>, platform: Platform)
    requires Distinct(done)
    requires forall g :: g in done ==> g in maleShuffles && g in femaleShuffles
    ensures GenderTickQueues(qs, done, maleShuffles, femaleShuffles, platform)
         == map g | g in qs :: if g in done then GenderSweep(qs[g], maleShuffles[g], femaleShuffles[g], g in platform) else qs[g]
    decreases |done|
  {
    if done != [] {
      var init, last := done[..|done| - 1], done[|done| - 1];
      assert done == init + [last];
      assert Distinct(init);
      GenderTickQueuesPerGuild(qs, init, maleShuffles, femaleShuffles, platform);
      assert last !in init;
    }
  }

  /** A whole tick sweeps every guild's gender queue exactly once. */
  lemma GenderTickQueuesAll(qs: map<GuildId, GenderQueues>, order: seq<GuildId>,
                            maleShuffles: map<GuildId, seq<UserId>>, femaleShuffles: map<GuildId, seq<UserId>>, platform: Platform)
    requires Arranges(order, qs.Keys)
    requires forall g :: g in order ==> g in maleShuffles && g in femaleShuffles
    ensures GenderTickQueues(qs, order, maleShuffles, femaleShuffles, platform)
         == map g | g in qs :: GenderSweep(qs[g], maleShuffles[g], femaleShuffles[g], g in platform)
  {
    GenderTickQueuesPerGuild(qs, order, maleShuffles, femaleShuffles, platform);
  }

  // ---------------------------------------------------------------------------
  // State

  /** The lifecycle record of one created voice channel. Only the two flags
      are ever assigned after construction. */
  class VCState {
    const guildId: GuildId
    const memberIds: set<UserId>
    const createdAt: Time
    var everJoined: bool
    var bothJoined: bool

    constructor (guildId: GuildId, memberIds: set<UserId>, createdAt: Time)
      ensures View() == Session(guildId, memberIds, createdAt, false, false)
    {
      this.guildId := guildId;
      this.memberIds := memberIds;
      this.createdAt := createdAt;
      this.everJoined := false;
      this.bothJoined := false;
    }

    function View(): Session
      reads this
    {
      Session(guildId, memberIds, createdAt, everJoined, bothJoined)
    }
  }

  /** The module-level dicts `general_queues`, `gender_queues`, `vc_states`. */
  class MatchBot {
    var generalQueues: map<GuildId, Bucket>
    var genderQueues: map<GuildId, GenderQueues>
    var vcStates: map<ChannelId, VCState>

    /** Every tracked channel has its own `VCState` object. */
    ghost predicate Valid()
      reads this`vcStates
    {
      forall a, b :: a in vcStates && b in vcStates && a != b ==> vcStates[a] != vcStates[b]
    }

    /** `vc_states` as a value. */
    function Sessions(): Registry
      reads this`vcStates, vcStates.Values
    {
      map id | id in vcStates :: vcStates[id].View()
    }

    /** What `general_queues.setdefault(g, {})` returns: the guild's stored
        queue, or a new empty one. */
    function GeneralOf(g: GuildId): (q: Bucket)
      reads this`generalQueues
      ensures g in generalQueues ==> q == generalQueues[g]
      ensures g !in generalQueues ==> |q| == 0
    {
      if g in generalQueues then generalQueues[g] else map[]
    }

    /** What `gender_queues.setdefault(g, {"male": {}, "female": {}})` returns:
        the guild's stored buckets, or two new empty ones. */
    function GenderOf(g: GuildId): (b: GenderQueues)
      reads this`genderQueues
      ensures g in genderQueues ==> b == genderQueues[g]
      ensures g !in genderQueues ==> |b.male| == 0 && |b.female| == 0
    {
      if g in genderQueues then genderQueues[g] else EMPTY_GENDER_QUEUES
    }

    constructor ()
      ensures Valid()
      ensures generalQueues == map[] && genderQueues == map[] && vcStates == map[]
    {
      generalQueues := map[];
      genderQueues := map[];
      vcStates := map[];
    }

    // -------------------------------------------------------------------------
    // Join buttons, cancel and status

    /** The general join button. */
    method JoinGeneral(guild: Option<GuildId>, user: UserId, now: Time) returns (resp: JoinResponse)
      modifies this`generalQueues
      ensures guild.None? ==> resp == NotInGuild && generalQueues == old(generalQueues)
      ensures guild.Some? ==>
        var (q, reply) := Join(old(GeneralOf(guild.value)), user, now);
        generalQueues == old(generalQueues)[guild.value := q] && resp == Replied(reply)
    {
      if guild.None? {
        return NotInGuild;
      }
      var g := guild.value;
      var q := GeneralOf(g);
      generalQueues := generalQueues[g := q];
      if user in q {
        return Replied(AlreadyQueued(q[user]));
      }
      var readyAt := now + READY_DELAY_SECONDS;
      generalQueues := generalQueues[g := q[user := readyAt]];
      resp := Replied(Accepted(readyAt));
    }

    /** The gender join button: the role check first, then a join of the
        bucket of the role held. */
    method JoinGender(guild: Option<GuildId>, user: UserId, roles: seq<RoleId>, now: Time) returns (resp: JoinResponse)
      modifies this`genderQueues
      ensures guild.None? ==> resp == NotInGuild && genderQueues == old(genderQueues)
      ensures guild.Some? && !Admit(roles).Admitted? ==>
        resp == NotAdmitted(Admit(roles)) && genderQueues == old(genderQueues)
      ensures guild.Some? && Admit(roles).Admitted? ==>
        var qg := old(GenderOf(guild.value));
        var sex := Admit(roles).bucket;
        var (q, reply) := Join(qg.Get(sex), user, now);
        genderQueues == old(genderQueues)[guild.value := qg.With(sex, q)] && resp == Replied(reply)
    {
      if guild.None? {
        return NotInGuild;
      }
      var hasMale := MALE_ROLE_ID in roles;
      var hasFemale := FEMALE_ROLE_ID in roles;
      if !(hasMale || hasFemale) {
        return NotAdmitted(NoGenderRole);
      }
      if hasMale && hasFemale {
        return NotAdmitted(BothGenderRoles);
      }
      var g := guild.value;
      var qg := GenderOf(g);
      genderQueues := genderQueues[g := qg];
      var sex := if hasMale then Male else Female;
      var q := qg.Get(sex);
      if user in q {
        return Replied(AlreadyQueued(q[user]));
      }
      var readyAt := now + READY_DELAY_SECONDS;
      genderQueues := genderQueues[g := qg.With(sex, q[user := readyAt])];
      resp := Replied(Accepted(readyAt));
    }

    /** `cancel_match`: leaves the general queue (the gender queue has no
        cancel command). */
    method CancelMatch(guild: Option<GuildId>, user: UserId) returns (resp: CancelResponse)
      modifies this`generalQueues
      ensures guild.None? ==> resp == CancelNotInGuild && generalQueues == old(generalQueues)
      ensures guild.Some? ==>
        var (q, removed) := Cancel(old(GeneralOf(guild.value)), user);
        generalQueues == old(generalQueues)[guild.value := q]
        && resp == (if removed then Cancelled else NotQueued)
    {
      if guild.None? {
        return CancelNotInGuild;
      }
      var g := guild.value;
      var q := GeneralOf(g);
      if user in q {
        generalQueues := generalQueues[g := q - {user}];
        resp := Cancelled;
      } else {
        generalQueues := generalQueues[g := q];
        assert q - {user} == q;
        resp := NotQueued;
      }
    }

    /** `queue_status`; its `setdefault` calls leave empty entries behind. */
    method QueueStatus(guild: Option<GuildId>, now: Time) returns (resp: StatusResponse)
      modifies this`generalQueues, this`genderQueues
      ensures guild.None? ==>
        resp == StatusNotInGuild && generalQueues == old(generalQueues) && genderQueues == old(genderQueues)
      ensures guild.Some? ==>
        && generalQueues == old(generalQueues)[guild.value := old(GeneralOf(guild.value))]
        && genderQueues == old(genderQueues)[guild.value := old(GenderOf(guild.value))]
        && resp == Report(StatusOf(old(GeneralOf(guild.value)), old(GenderOf(guild.value)), now))
    {
      if guild.None? {
        return StatusNotInGuild;
      }
      var g := guild.value;
      var gq := GeneralOf(g);
      generalQueues := generalQueues[g := gq];
      var gg := GenderOf(g);
      genderQueues := genderQueues[g := gg];
      resp := Report(StatusOf(gq, gg, now));
    }

    // -------------------------------------------------------------------------
    // Pairing tick

    /** The registration part of `create_private_vc_and_notify`, for a pair
        whose members resolved: a new `VCState` under the new channel's id,
        unless the category is missing or the creation failed. */
    method CreatePrivateVcAndNotify(g: GuildId, m1: UserId, m2: UserId, hasCategory: bool, created: Option<ChannelId>, now: Time)
      requires Valid()
      modifies this`vcStates
      ensures Valid()
      ensures Sessions() == Provision(old(Sessions()), g, m1, m2, hasCategory, created, now)
    {
      if !hasCategory || created.None? {
        return;
      }
      var id := created.value;
      var st := new VCState(g, {m1, m2}, now);
      vcStates := vcStates[id := st];
      assert Sessions() == old(Sessions())[id := NewSession(g, m1, m2, now)];
    }

    /** The body of the general sweep's `for uid1, uid2 in pairs` loop: pop
        both users, look both members up, create the channel when both
        resolve. */
    method HandleGeneralPair(g: GuildId, p: Pair, guild: GuildView, create: Provisioner, now: Time)
      requires Valid()
      requires g in generalQueues
      modifies this`generalQueues, this`vcStates
      ensures Valid()
      ensures generalQueues == old(generalQueues)[g := old(generalQueues[g]) - {p.0} - {p.1}]
      ensures Sessions() == ProvisionPair(old(Sessions()), g, p, guild, create, now)
    {
      var uid1, uid2 := p.0, p.1;
      generalQueues := generalQueues[g := generalQueues[g] - {uid1} - {uid2}];
      if uid1 in guild.members && uid2 in guild.members {
        CreatePrivateVcAndNotify(g, uid1, uid2, guild.hasCategory, create(g, uid1, uid2), now);
      }
    }

    /** One guild of the general part of `match_loop`. `shuffled` is the ready
        list after `random.shuffle`: any arrangement of the ready users. */
    method SweepGeneralGuild(g: GuildId, now: Time, shuffled: seq<UserId>, platform: Platform, create: Provisioner)
      requires Valid()
      requires g in generalQueues
      requires Arranges(shuffled, ReadySet(generalQueues[g], now))
      modifies this`generalQueues, this`vcStates
      ensures Valid()
      ensures generalQueues == old(generalQueues)[g := GeneralSweep(old(generalQueues[g]), shuffled, g in platform)]
      ensures Sessions() == GeneralGuildSessions(old(Sessions()), g, shuffled, platform, create, now)
    {
      MapUpdateSame(generalQueues, g);
      if |shuffled| >= 2 {
        var pairs := PairOff(shuffled);
        if g in platform {
          var guild := platform[g];
          ghost var q0 := generalQueues[g];
          ghost var s0 := Sessions();
          assert q0 - PairedUsers(pairs[..0]) == q0;
          for i := 0 to |pairs|
            invariant Valid()
            invariant generalQueues == old(generalQueues)[g := q0 - PairedUsers(pairs[..i])]
            invariant Sessions() == ProvisionAll(s0, g, pairs[..i], guild, create, now)
          {
            PopNextPair(q0, pairs, i);
            ProvisionAllStep(s0, g, pairs, i, guild, create, now);
            HandleGeneralPair(g, pairs[i], guild, create, now);
          }
          assert pairs[..|pairs|] == pairs;
        }
      }
    }

    /** The body of the gender sweep's `while ready_m and ready_f` loop after
        the two pops from the ready lists. */
    method HandleGenderPair(g: GuildId, uidM: UserId, uidF: UserId, guild: GuildView, create: Provisioner, now: Time)
      requires Valid()
      requires g in genderQueues
      modifies this`genderQueues, this`vcStates
      ensures Valid()
      ensures genderQueues == old(genderQueues)[g := GenderQueues(old(genderQueues[g]).male - {uidM}, old(genderQueues[g]).female - {uidF})]
      ensures Sessions() == ProvisionPair(old(Sessions()), g, (uidM, uidF), guild, create, now)
    {
      var buckets := genderQueues[g];
      genderQueues := genderQueues[g := GenderQueues(buckets.male - {uidM}, buckets.female - {uidF})];
      if uidM in guild.members && uidF in guild.members {
        CreatePrivateVcAndNotify(g, uidM, uidF, guild.hasCategory, create(g, uidM, uidF), now);
      }
    }

    /** One guild of the gender part of `match_loop`. `sm` and `sf` are the
        shuffled ready lists of the male and the female bucket. */
    method SweepGenderGuild(g: GuildId, now: Time, sm: seq<UserId>, sf: seq<UserId>, platform: Platform, create: Provisioner)
      requires Valid()
      requires g in genderQueues
      requires GenderShuffled(genderQueues[g], sm, sf, now)
      modifies this`genderQueues, this`vcStates
      ensures Valid()
      ensures genderQueues == old(genderQueues)[g := GenderSweep(old(genderQueues[g]), sm, sf, g in platform)]
      ensures Sessions() == GenderGuildSessions(old(Sessions()), g, sm, sf, platform, create, now)
    {
      MapUpdateSame(genderQueues, g);
      if |sm| >= 1 && |sf| >= 1 {
        if g in platform {
          var guild := platform[g];
          ghost var b0 := genderQueues[g];
          ghost var s0 := Sessions();
          var readyM, readyF := sm, sf;
          ghost var formed: seq<Pair> := [];
          assert Firsts(formed) == {} && Seconds(formed) == {};
          assert GenderQueues(b0.male - {}, b0.female - {}) == b0;
          while |readyM| > 0 && |readyF| > 0
            invariant Valid()
            invariant formed + GenderPairs(readyM, readyF) == GenderPairs(sm, sf)
            invariant genderQueues == old(genderQueues)[g := GenderQueues(b0.male - Firsts(formed), b0.female - Seconds(formed))]
            invariant Sessions() == ProvisionAll(s0, g, formed, guild, create, now)
            decreases |readyM|
          {
            GenderPairsPop(formed, readyM, readyF);
            var uidM := readyM[|readyM| - 1];
            readyM := readyM[..|readyM| - 1];
            var uidF := readyF[|readyF| - 1];
            readyF := readyF[..|readyF| - 1];
            PopNextGenderPair(b0, formed, (uidM, uidF));
            ProvisionAllSnoc(s0, g, formed, (uidM, uidF), guild, create, now);
            HandleGenderPair(g, uidM, uidF, guild, create, now);
            formed := formed + [(uidM, uidF)];
          }
          assert GenderPairs(readyM, readyF) == [];
          assert formed == GenderPairs(sm, sf);
        }
      }
    }

    /** The `i`-th guild of the general part of `match_loop`, in the order
        `order` in which the dict yields the guilds. */
    method SweepGeneralNext(now: Time, order: seq<GuildId>, i: nat, shuffles: map<GuildId, seq<UserId>>,
                            platform: Platform, create: Provisioner, ghost q0: map<GuildId, Bucket>, ghost s0: Registry)
      requires Valid()
      requires i < |order| && Arranges(order, q0.Keys)
      requires GeneralShuffledAll(q0, shuffles, now)
      requires generalQueues == GeneralTickQueues(q0, order[..i], shuffles, platform)
      requires Sessions() == GeneralTickSessions(s0, order[..i], shuffles, platform, create, now)
      modifies this`generalQueues, this`vcStates
      ensures Valid()
      ensures generalQueues == GeneralTickQueues(q0, order[..i + 1], shuffles, platform)
      ensures Sessions() == GeneralTickSessions(s0, order[..i + 1], shuffles, platform, create, now)
    {
      var g := order[i];
      PrefixStep(order, i);
      GeneralTickQueuesKeep(q0, order[..i], shuffles, platform);
      assert g in q0 && Arranges(shuffles[g], ReadySet(q0[g], now));
      SweepGeneralGuild(g, now, shuffles[g], platform, create);
    }

    /** The general part of `match_loop`: every guild with a general queue,
        in the order `generalOrder` in which the dict yields them. */
    method SweepGeneral(now: Time, generalOrder: seq<GuildId>, generalShuffles: map<GuildId, seq<UserId>>,
                        platform: Platform, create: Provisioner)
      requires Valid()
      requires Arranges(generalOrder, generalQueues.Keys)
      requires GeneralShuffledAll(generalQueues, generalShuffles, now)
      modifies this`generalQueues, this`vcStates
      ensures Valid()
      ensures generalQueues == map g | g in old(generalQueues) ::
        GeneralSweep(old(generalQueues)[g], generalShuffles[g], g in platform)
      ensures Sessions() == GeneralTickSessions(old(Sessions()), generalOrder, generalShuffles, platform, create, now)
    {
      ghost var q0 := generalQueues;
      ghost var s0 := Sessions();
      for i := 0 to |generalOrder|
        invariant Valid()
        invariant generalQueues == GeneralTickQueues(q0, generalOrder[..i], generalShuffles, platform)
        invariant Sessions() == GeneralTickSessions(s0, generalOrder[..i], generalShuffles, platform, create, now)
      {
        SweepGeneralNext(now, generalOrder, i, generalShuffles, platform, create, q0, s0);
      }
      assert generalOrder[..|generalOrder|] == generalOrder;
      GeneralTickQueuesAll(q0, generalOrder, generalShuffles, platform);
    }

    /** The `i`-th guild of the gender part of `match_loop`. */
    method SweepGenderNext(now: Time, order: seq<GuildId>, i: nat,
                           maleShuffles: map<GuildId, seq<UserId>>, femaleShuffles: map<GuildId, seq<UserId>>,
                           platform: Platform, create: Provisioner, ghost g0: map<GuildId, GenderQueues>, ghost s0: Registry)
      requires Valid()
      requires i < |order| && Arranges(order, g0.Keys)
      requires GenderShuffledAll(g0, maleShuffles, femaleShuffles, now)
      requires genderQueues == GenderTickQueues(g0, order[..i], maleShuffles, femaleShuffles, platform)
      requires Sessions() == GenderTickSessions(s0, order[..i], maleShuffles, femaleShuffles, platform, create, now)
      modifies this`genderQueues, this`vcStates
      ensures Valid()
      ensures genderQueues == GenderTickQueues(g0, order[..i + 1], maleShuffles, femaleShuffles, platform)
      ensures Sessions() == GenderTickSessions(s0, order[..i + 1], maleShuffles, femaleShuffles, platform, create, now)
    {
      var g := order[i];
      PrefixStep(order, i);
      GenderTickQueuesKeep(g0, order[..i], maleShuffles, femaleShuffles, platform);
      assert g in g0 && GenderShuffled(g0[g], maleShuffles[g], femaleShuffles[g], now);
      SweepGenderGuild(g, now, maleShuffles[g], femaleShuffles[g], platform, create);
    }

    /** The gender part of `match_loop`, guild by guild in `genderOrder`. */
    method SweepGender(now: Time, genderOrder: seq<GuildId>,
                       maleShuffles: map<GuildId, seq<UserId>>, femaleShuffles: map<GuildId, seq<UserId>>,
                       platform: Platform, create: Provisioner)
      requires Valid()
      requires Arranges(genderOrder, genderQueues.Keys)
      requires GenderShuffledAll(genderQueues, maleShuffles, femaleShuffles, now)
      modifies this`genderQueues, this`vcStates
      ensures Valid()
      ensures genderQueues == map g | g in old(genderQueues) ::
        GenderSweep(old(genderQueues)[g], maleShuffles[g], femaleShuffles[g], g in platform)
      ensures Sessions() == GenderTickSessions(old(Sessions()), genderOrder, maleShuffles, femaleShuffles, platform, create, now)
    {
      ghost var g0 := genderQueues;
      ghost var s0 := Sessions();
      for i := 0 to |genderOrder|
        invariant Valid()
        invariant genderQueues == GenderTickQueues(g0, genderOrder[..i], maleShuffles, femaleShuffles, platform)
        invariant Sessions() == GenderTickSessions(s0, genderOrder[..i], maleShuffles, femaleShuffles, platform, create, now)
      {
        SweepGenderNext(now, genderOrder, i, maleShuffles, femaleShuffles, platform, create, g0, s0);
      }
      assert genderOrder[..|genderOrder|] == genderOrder;
      GenderTickQueuesAll(g0, genderOrder, maleShuffles, femaleShuffles, platform);
    }

    /** One tick of `match_loop`: the general sweep, then the gender sweep.
        Each sweep's `create_voice_channel` calls have their own outcomes, so
        a pair formed by both sweeps can get two channels. */
    method MatchLoop(now: Time,
                     generalOrder: seq<GuildId>, generalShuffles: map<GuildId, seq<UserId>>,
                     genderOrder: seq<GuildId>, maleShuffles: map<GuildId, seq<UserId>>, femaleShuffles: map<GuildId, seq<UserId>>,
                     platform: Platform, createGeneral: Provisioner, createGender: Provisioner)
      requires Valid()
      requires Arranges(generalOrder, generalQueues.Keys)
      requires GeneralShuffledAll(generalQueues, generalShuffles, now)
      requires Arranges(genderOrder, genderQueues.Keys)
      requires GenderShuffledAll(genderQueues, maleShuffles, femaleShuffles, now)
      modifies this`generalQueues, this`genderQueues, this`vcStates
      ensures Valid()
      ensures generalQueues == map g | g in old(generalQueues) ::
        GeneralSweep(old(generalQueues)[g], generalShuffles[g], g in platform)
      ensures genderQueues == map g | g in old(genderQueues) ::
        GenderSweep(old(genderQueues)[g], maleShuffles[g], femaleShuffles[g], g in platform)
      ensures Sessions() == GenderTickSessions(
        GeneralTickSessions(old(Sessions()), generalOrder, generalShuffles, platform, createGeneral, now),
        genderOrder, maleShuffles, femaleShuffles, platform, createGender, now)
    {
      SweepGeneral(now, generalOrder, generalShuffles, platform, createGeneral);
      SweepGender(now, genderOrder, maleShuffles, femaleShuffles, platform, createGender);
    }

    // -------------------------------------------------------------------------
    // Idle watchdog and voice-state handler

    /** The body of the watchdog's loop for channel `id`. */
    method CheckIdleVc(id: ChannelId, world: Platform, now: Time)
      requires Valid()
      requires id in vcStates
      modifies this`vcStates
      ensures Valid()
      ensures Sessions() == if WatchdogDrops(id, old(Sessions())[id], world, now) then old(Sessions()) - {id} else old(Sessions())
    {
      var st := vcStates[id];
      if st.guildId !in world {
        vcStates := vcStates - {id};
      } else if id !in world[st.guildId].voiceChannels {
        vcStates := vcStates - {id};
      } else if !st.everJoined && now - st.createdAt >= VC_IDLE_DELETE_SECONDS
                && |world[st.guildId].voiceChannels[id]| == 0 {
        // ch.delete() is attempted; whether it fails or not, the entry goes.
        vcStates := vcStates - {id};
      }
      assert old(Sessions())[id] == st.View();
    }

    /** One turn of the watchdog's loop: some channel still to inspect is
        checked and leaves the snapshot. */
    method VcIdleWatchdogNext(ghost s0: Registry, world: Platform, now: Time, pending: set<ChannelId>) returns (rest: set<ChannelId>)
      requires Valid()
      requires pending != {} && pending <= s0.Keys
      requires Sessions() == WatchdogPending(s0, world, now, pending)
      modifies this`vcStates
      ensures Valid()
      ensures rest < pending
      ensures Sessions() == WatchdogPending(s0, world, now, rest)
    {
      var id := Pick(pending);
      WatchdogPendingStep(s0, world, now, pending, id);
      rest := pending - {id};
      CheckIdleVc(id, world, now);
    }

    /** One tick of `vc_idle_watchdog` over a snapshot of `vc_states`. */
    method VcIdleWatchdog(world: Platform, now: Time)
      requires Valid()
      modifies this`vcStates
      ensures Valid()
      ensures Sessions() == Watchdog(old(Sessions()), world, now)
    {
      var pending := vcStates.Keys;
      ghost var s0 := Sessions();
      WatchdogPendingEnds(s0, world, now);
      while pending != {}
        invariant Valid()
        invariant pending <= s0.Keys
        invariant Sessions() == WatchdogPending(s0, world, now, pending)
        decreases pending
      {
        pending := VcIdleWatchdogNext(s0, world, now, pending);
      }
    }

    /** `on_voice_state_update`: `after` is the channel the member is now in,
        `before` the one they were in, each as seen at the event. */
    method OnVoiceStateUpdate(before: Option<ChannelView>, after: Option<ChannelView>)
      requires Valid()
      modifies this`vcStates, vcStates.Values
      ensures Valid()
      ensures Sessions() == VoiceUpdate(old(Sessions()), before, after)
    {
      if after.Some? && after.value.id in vcStates {
        var st := vcStates[after.value.id];
        if after.value.isVoice {
          st.everJoined := true;
          if st.memberIds <= after.value.members {
            st.bothJoined := true;
          }
          assert forall id :: id in vcStates && id != after.value.id ==> vcStates[id] != st;
        }
      }
      assert Sessions() == OnEnter(old(Sessions()), after);
      if before.Some? && before.value.id in vcStates {
        var st := vcStates[before.value.id];
        if before.value.isVoice {
          if |before.value.members| == 0 && st.bothJoined {
            // ch.delete() is attempted; whether it fails or not, the entry goes.
            vcStates := vcStates - {before.value.id};
          }
        }
      }
    }
  }
}
