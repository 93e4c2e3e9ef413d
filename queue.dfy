/** The readiness queues: per guild, a bucket mapping each waiting user to the
    time from which they may be paired. */
module ReadyQueue {
  import opened Common

  /** Grace period between pressing a join button and becoming eligible. */
  const READY_DELAY_SECONDS: int := 60

  const MALE_ROLE_ID: RoleId := 1399390214295785623
  const FEMALE_ROLE_ID: RoleId := 1399390384756363264

  /** user -> ready_at */
  type Bucket = map<UserId, Time>

  /** The two buckets of one guild's gender queue. */
  datatype Sex = Male | Female

  datatype GenderQueues = GenderQueues(male: Bucket, female: Bucket)
  {
    function Get(sex: Sex): Bucket
    {
      match sex
      case Male => male
      case Female => female
    }

    function With(sex: Sex, q: Bucket): (r: GenderQueues)
      ensures r.Get(sex) == q
      ensures sex == Male ==> r.female == female
      ensures sex == Female ==> r.male == male
    {
      match sex
      case Male => this.(male := q)
      case Female => this.(female := q)
    }
  }

  const EMPTY_GENDER_QUEUES := GenderQueues(map[], map[])

  /** What a join press answers: either the new entry's ready time, or that the
      user is already queued, with the ready time stored earlier. */
  datatype JoinReply = Accepted(readyAt: Time) | AlreadyQueued(readyAt: Time)

  /** Joining a bucket: a user already present keeps their entry untouched;
      otherwise exactly their key is added, `READY_DELAY_SECONDS` after `now`. */
  function Join(q: Bucket, user: UserId, now: Time): (r: (Bucket, JoinReply))
    ensures r.0.Keys == q.Keys + {user}
    ensures forall u :: u in q ==> r.0[u] == q[u]
    ensures r.1.AlreadyQueued? <==> user in q
    ensures r.1.readyAt == r.0[user]
    ensures user !in q ==> r.0[user] == now + READY_DELAY_SECONDS
  {
    if user in q then (q, AlreadyQueued(q[user]))
    else (q[user := now + READY_DELAY_SECONDS], Accepted(now + READY_DELAY_SECONDS))
  }

  /** Cancelling: the user's entry is dropped, and the answer says whether there
      was one. */
  function Cancel(q: Bucket, user: UserId): (r: (Bucket, bool))
    ensures r.1 <==> user in q
    ensures r.0.Keys == q.Keys - {user}
    ensures forall u :: u in r.0 ==> r.0[u] == q[u]
  {
    (q - {user}, user in q)
  }

  /** A second join of the same user, at any later time, changes nothing. */
  lemma JoinTwice(q: Bucket, user: UserId, now: Time, later: Time)
    ensures Join(Join(q, user, now).0, user, later)
         == (Join(q, user, now).0, AlreadyQueued(Join(q, user, now).1.readyAt))
  {
  }

  /** Cancel undoes a join that added an entry. */
  lemma CancelUndoesJoin(q: Bucket, user: UserId, now: Time)
    requires user !in q
    ensures Cancel(Join(q, user, now).0, user) == (q, true)
  {
    assert Join(q, user, now).0 - {user} == q;
  }

  /** Cancel is idempotent: the second one reports nothing removed. */
  lemma CancelTwice(q: Bucket, user: UserId)
    ensures Cancel(Cancel(q, user).0, user) == (Cancel(q, user).0, false)
  {
    assert Cancel(q, user).0 - {user} == Cancel(q, user).0;
  }

  /** Users whose grace period is over: the `ready` comprehensions. */
  function ReadySet(q: Bucket, now: Time): set<UserId>
  {
    set u | u in q && q[u] <= now
  }

  /** Users still in their grace period. */
  function WaitingSet(q: Bucket, now: Time): set<UserId>
  {
    set u | u in q && q[u] > now
  }

  /** The `sum(1 for t in ... if t <= now)` and `... if t > now` counts of the
      status command. */
  function ReadyCount(q: Bucket, now: Time): nat
  {
    |ReadySet(q, now)|
  }

  function WaitingCount(q: Bucket, now: Time): nat
  {
    |WaitingSet(q, now)|
  }

  /** The two counts split the bucket: every entry is counted exactly once. */
  lemma StatusPartition(q: Bucket, now: Time)
    ensures ReadyCount(q, now) + WaitingCount(q, now) == |q|
    ensures ReadySet(q, now) !! WaitingSet(q, now)
    ensures ReadySet(q, now) + WaitingSet(q, now) == q.Keys
  {
    var r, w := ReadySet(q, now), WaitingSet(q, now);
    assert r + w == q.Keys;
    assert r * w == {};
    assert |q.Keys| == |q|;
  }

  /** Outcome of the role check of the gender join button. */
  datatype Admission = NoGenderRole | BothGenderRoles | Admitted(bucket: Sex)

  /** The role check: a member with neither role, or with both, is refused;
      otherwise they join the bucket of the role they hold. */
  function Admit(roles: seq<RoleId>): (r: Admission)
    ensures r == NoGenderRole <==> MALE_ROLE_ID !in roles && FEMALE_ROLE_ID !in roles
    ensures r == BothGenderRoles <==> MALE_ROLE_ID in roles && FEMALE_ROLE_ID in roles
    ensures r == Admitted(Male) <==> MALE_ROLE_ID in roles && FEMALE_ROLE_ID !in roles
    ensures r == Admitted(Female) <==> FEMALE_ROLE_ID in roles && MALE_ROLE_ID !in roles
  {
    var hasMale := MALE_ROLE_ID in roles;
    var hasFemale := FEMALE_ROLE_ID in roles;
    if !(hasMale || hasFemale) then NoGenderRole
    else if hasMale && hasFemale then BothGenderRoles
    else Admitted(if hasMale then Male else Female)
  }
}
