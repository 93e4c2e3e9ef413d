/** The pairing sweep of `match_loop`: how ready users are popped into pairs
    and what is left in the buckets afterwards. */
module Pairing {
  import opened Common
  import opened ReadyQueue

  type Pair = (UserId, UserId)

  /** Users in first, second and either position of some pair. */
  function Firsts(ps: seq<Pair>): set<UserId>
  {
    set p | p in ps :: p.0
  }

  function Seconds(ps: seq<Pair>): set<UserId>
  {
    set p | p in ps :: p.1
  }

  function PairedUsers(ps: seq<Pair>): set<UserId>
  {
    Firsts(ps) + Seconds(ps)
  }

  /** All 2 * |ps| users of the pairs are different people. */
  predicate PairwiseDisjoint(ps: seq<Pair>)
  {
    forall i, j :: 0 <= i < |ps| && 0 <= j < |ps| ==>
      ps[i].0 != ps[j].1 && (i != j ==> ps[i].0 != ps[j].0 && ps[i].1 != ps[j].1)
  }

  /** No user is in first position twice, nor in second position twice. */
  predicate SidesDistinct(ps: seq<Pair>)
  {
    forall i, j :: 0 <= i < j < |ps| ==> ps[i].0 != ps[j].0 && ps[i].1 != ps[j].1
  }

  // ---------------------------------------------------------------------------
  // General queue: `while len(ready) >= 2: u1 = ready.pop(); u2 = ready.pop()`

  /** The pairs the general loop forms from the shuffled ready list `s`. */
  function GeneralPairs(s: seq<UserId>): (ps: seq<Pair>)
    ensures |ps| == |s| / 2
    decreases |s|
  {
    if |s| < 2 then []
    else [(s[|s| - 1], s[|s| - 2])] + GeneralPairs(s[..|s| - 2])
  }

  /** The general pop loop, which works on a local copy of the ready list. */
  method PairOff(ready: seq<UserId>) returns (pairs: seq<Pair>)
    ensures pairs == GeneralPairs(ready)
    ensures |pairs| == |ready| / 2
  {
    var rest := ready;
    pairs := [];
    while |rest| >= 2
      invariant pairs + GeneralPairs(rest) == GeneralPairs(ready)
      decreases |rest|
    {
      ghost var before := rest;
      var u1 := rest[|rest| - 1];
      rest := rest[..|rest| - 1];
      var u2 := rest[|rest| - 1];
      rest := rest[..|rest| - 1];
      assert rest == before[..|before| - 2];
      pairs := pairs + [(u1, u2)];
    }
    GeneralPairsAt(ready);
  }

  /** Pair i of the general loop holds the (2i+1)-th and (2i+2)-th entries
      counted from the end of the list. */
  lemma {:induction false} GeneralPairsAt(s: seq<UserId>)
    ensures |GeneralPairs(s)| == |s| / 2
    ensures forall i :: 0 <= i < |s| / 2 ==>
      GeneralPairs(s)[i] == (s[|s| - 1 - 2 * i], s[|s| - 2 - 2 * i])
    decreases |s|
  {
    if |s| >= 2 {
      var t := s[..|s| - 2];
      var ps, rest := GeneralPairs(s), GeneralPairs(t);
      assert ps == [(s[|s| - 1], s[|s| - 2])] + rest;
      GeneralPairsAt(t);
      assert |t| / 2 == |s| / 2 - 1;
      forall i | 0 < i < |s| / 2
        ensures ps[i] == (s[|s| - 1 - 2 * i], s[|s| - 2 - 2 * i])
      {
        assert ps[i] == rest[i - 1];
        assert t[|t| - 1 - 2 * (i - 1)] == s[|s| - 1 - 2 * i];
        assert t[|t| - 2 - 2 * (i - 1)] == s[|s| - 2 - 2 * i];
      }
    }
  }

  /** From a list without repetitions the general loop forms pairs of
      pairwise different users. */
  lemma GeneralPairsDisjoint(s: seq<UserId>)
    requires Distinct(s)
    ensures PairwiseDisjoint(GeneralPairs(s))
  {
    var ps := GeneralPairs(s);
    var n := |s|;
    GeneralPairsAt(s);
    forall i, j | 0 <= i < |ps| && 0 <= j < |ps|
      ensures ps[i].0 != ps[j].1 && (i != j ==> ps[i].0 != ps[j].0 && ps[i].1 != ps[j].1)
    {
      var a, b, c, d := n - 1 - 2 * i, n - 2 - 2 * j, n - 1 - 2 * j, n - 2 - 2 * i;
      assert ps[i] == (s[a], s[d]) && ps[j] == (s[c], s[b]);
      assert a != b;
      assert i != j ==> a != c && d != b;
    }
  }

  lemma FirstsSecondsCons(a: Pair, rest: seq<Pair>)
    ensures Firsts([a] + rest) == {a.0} + Firsts(rest)
    ensures Seconds([a] + rest) == {a.1} + Seconds(rest)
  {
    var ps := [a] + rest;
    assert forall p :: p in ps <==> p == a || p in rest;
  }

  lemma DropTwoParity(n: int)
    requires n >= 2
    ensures (n - 2) % 2 == n % 2
  {
  }

  /** The general loop pairs every user of the list but the first when the
      list has odd length. */
  lemma {:induction false} GeneralPairsUsers(s: seq<UserId>)
    ensures PairedUsers(GeneralPairs(s)) == Elems(s[|s| % 2..])
    decreases |s|
  {
    if |s| >= 2 {
      var n := |s|;
      var r := n % 2;
      var t := s[..n - 2];
      var u := s[..n - 1];
      var ps, rest := GeneralPairs(s), GeneralPairs(t);
      assert ps == [(s[n - 1], s[n - 2])] + rest;
      FirstsSecondsCons((s[n - 1], s[n - 2]), rest);
      GeneralPairsUsers(t);
      DropTwoParity(n);
      SuffixSnoc(s, r);
      SuffixSnoc(u, r);
      assert u[..n - 2] == t;
      ElemsSnoc(u[r..], s[n - 1]);
      ElemsSnoc(t[r..], s[n - 2]);
    } else {
      assert s[|s| % 2..] == [];
    }
  }

  /** From a list without repetitions the general loop pairs exactly
      2 * (|s| / 2) different users. */
  lemma GeneralPairsCount(s: seq<UserId>)
    requires Distinct(s)
    ensures |PairedUsers(GeneralPairs(s))| == 2 * (|s| / 2)
  {
    var tail, paired := s[|s| % 2..], PairedUsers(GeneralPairs(s));
    GeneralPairsUsers(s);
    assert forall x :: x in tail <==> x in Elems(tail);
    DistinctSuffix(s, |s| % 2);
    assert Arranges(tail, paired);
    ArrangementSize(tail, paired);
  }

  /** The general queue after one guild's sweep: the paired users are popped,
      but only when at least two were ready and the guild resolved. */
  function GeneralSweep(q: Bucket, shuffled: seq<UserId>, guildFound: bool): (r: Bucket)
    ensures r.Keys <= q.Keys
  {
    if |shuffled| >= 2 && guildFound then q - PairedUsers(GeneralPairs(shuffled)) else q
  }

  /** Popping a set of ready users from a bucket: the waiting users and the
      other entries stay, and the counts drop by exactly the popped number. */
  lemma PopReady(q: Bucket, now: Time, popped: set<UserId>)
    requires popped <= ReadySet(q, now)
    ensures (q - popped).Keys == q.Keys - popped
    ensures |q - popped| == |q| - |popped|
    ensures WaitingSet(q - popped, now) == WaitingSet(q, now)
    ensures ReadySet(q - popped, now) == ReadySet(q, now) - popped
    ensures |ReadySet(q - popped, now)| == |ReadySet(q, now)| - |popped|
  {
    var q' := q - popped;
    var ready := ReadySet(q, now);
    assert q.Keys == q'.Keys + popped;
    assert q'.Keys !! popped;
    assert |q| == |q.Keys| && |q'| == |q'.Keys|;
    assert ready == (ready - popped) + popped;
    assert ReadySet(q', now) == ready - popped;
  }

  /** One guild's general sweep, summarised: with N >= 2 ready users and a
      resolving guild it forms N / 2 disjoint pairs of ready users and removes
      exactly them, leaving the waiting users and the N % 2 leftover queued;
      otherwise the bucket is untouched. */
  lemma GeneralSweepSummary(q: Bucket, now: Time, shuffled: seq<UserId>, guildFound: bool)
    requires Arranges(shuffled, ReadySet(q, now))
    ensures var n := |ReadySet(q, now)|;
            var ps := GeneralPairs(shuffled);
            var q' := GeneralSweep(q, shuffled, guildFound);
            && (n >= 2 && guildFound ==>
                  && |ps| == n / 2
                  && PairwiseDisjoint(ps)
                  && PairedUsers(ps) <= ReadySet(q, now)
                  && q'.Keys == q.Keys - PairedUsers(ps)
                  && |q'| == |q| - 2 * (n / 2)
                  && WaitingSet(q', now) == WaitingSet(q, now)
                  && ReadySet(q', now) == ReadySet(q, now) - PairedUsers(ps)
                  && |ReadySet(q', now)| == n % 2)
            && (!(n >= 2 && guildFound) ==> q' == q)
            && (forall u :: u in q' ==> u in q && q'[u] == q[u])
  {
    var ready := ReadySet(q, now);
    var n := |ready|;
    ArrangementSize(shuffled, ready);
    if n >= 2 && guildFound {
      GeneralPairsDisjoint(shuffled);
      GeneralPairsUsers(shuffled);
      GeneralPairsCount(shuffled);
      GeneralPairsAt(shuffled);
      ArrangesElems(shuffled, ready, |shuffled| % 2);
      var paired := PairedUsers(GeneralPairs(shuffled));
      assert paired <= ready;
      PopReady(q, now, paired);
    }
  }

  // ---------------------------------------------------------------------------
  // Gender queue: `while ready_m and ready_f: uid_m = ready_m.pop(); uid_f = ready_f.pop()`

  /** The (male, female) pairs the gender loop forms from the two shuffled
      ready lists. */
  function GenderPairs(sm: seq<UserId>, sf: seq<UserId>): (ps: seq<Pair>)
    ensures |ps| == Min(|sm|, |sf|)
    decreases |sm|
  {
    if sm == [] || sf == [] then []
    else [(sm[|sm| - 1], sf[|sf| - 1])] + GenderPairs(sm[..|sm| - 1], sf[..|sf| - 1])
  }

  /** One turn of the gender loop moves the next pair from the pairs still to
      come to the pairs formed. */
  lemma GenderPairsPop(formed: seq<Pair>, sm: seq<UserId>, sf: seq<UserId>)
    requires sm != [] && sf != []
    ensures formed + GenderPairs(sm, sf)
         == (formed + [(sm[|sm| - 1], sf[|sf| - 1])]) + GenderPairs(sm[..|sm| - 1], sf[..|sf| - 1])
  {
  }

  /** Pair i of the gender loop holds the (i+1)-th entry from the end of each
      list. */
  lemma {:induction false} GenderPairsAt(sm: seq<UserId>, sf: seq<UserId>)
    ensures |GenderPairs(sm, sf)| == Min(|sm|, |sf|)
    ensures forall i :: 0 <= i < Min(|sm|, |sf|) ==>
      GenderPairs(sm, sf)[i] == (sm[|sm| - 1 - i], sf[|sf| - 1 - i])
    decreases |sm|
  {
    if sm != [] && sf != [] {
      var tm, tf := sm[..|sm| - 1], sf[..|sf| - 1];
      var ps, rest := GenderPairs(sm, sf), GenderPairs(tm, tf);
      assert ps == [(sm[|sm| - 1], sf[|sf| - 1])] + rest;
      GenderPairsAt(tm, tf);
      assert Min(|tm|, |tf|) == Min(|sm|, |sf|) - 1;
      forall i | 0 < i < Min(|sm|, |sf|)
        ensures ps[i] == (sm[|sm| - 1 - i], sf[|sf| - 1 - i])
      {
        assert ps[i] == rest[i - 1];
        assert tm[|tm| - 1 - (i - 1)] == sm[|sm| - 1 - i];
        assert tf[|tf| - 1 - (i - 1)] == sf[|sf| - 1 - i];
      }
    }
  }

  /** The gender loop never puts a user in first position twice, nor in
      second position twice. */
  lemma GenderPairsSidesDistinct(sm: seq<UserId>, sf: seq<UserId>)
    requires Distinct(sm) && Distinct(sf)
    ensures SidesDistinct(GenderPairs(sm, sf))
  {
    var ps := GenderPairs(sm, sf);
    GenderPairsAt(sm, sf);
    forall i, j | 0 <= i < j < |ps|
      ensures ps[i].0 != ps[j].0 && ps[i].1 != ps[j].1
    {
      assert ps[i] == (sm[|sm| - 1 - i], sf[|sf| - 1 - i]);
      assert ps[j] == (sm[|sm| - 1 - j], sf[|sf| - 1 - j]);
    }
  }

  /** The users in first position are the last Min(|sm|, |sf|) males. */
  lemma {:induction false} GenderPairsFirsts(sm: seq<UserId>, sf: seq<UserId>)
    ensures Firsts(GenderPairs(sm, sf)) == Elems(sm[|sm| - Min(|sm|, |sf|)..])
    decreases |sm|
  {
    if sm != [] && sf != [] {
      var tm, tf := sm[..|sm| - 1], sf[..|sf| - 1];
      var ps, rest := GenderPairs(sm, sf), GenderPairs(tm, tf);
      var j := |sm| - Min(|sm|, |sf|);
      assert ps == [(sm[|sm| - 1], sf[|sf| - 1])] + rest;
      FirstsSecondsCons((sm[|sm| - 1], sf[|sf| - 1]), rest);
      GenderPairsFirsts(tm, tf);
      assert |tm| - Min(|tm|, |tf|) == j;
      SuffixSnoc(sm, j);
      ElemsSnoc(tm[j..], sm[|sm| - 1]);
    } else {
      assert sm[|sm| - Min(|sm|, |sf|)..] == [];
    }
  }

  /** The users in second position are the last Min(|sm|, |sf|) females. */
  lemma {:induction false} GenderPairsSeconds(sm: seq<UserId>, sf: seq<UserId>)
    ensures Seconds(GenderPairs(sm, sf)) == Elems(sf[|sf| - Min(|sm|, |sf|)..])
    decreases |sm|
  {
    if sm != [] && sf != [] {
      var tm, tf := sm[..|sm| - 1], sf[..|sf| - 1];
      var ps, rest := GenderPairs(sm, sf), GenderPairs(tm, tf);
      var j := |sf| - Min(|sm|, |sf|);
      assert ps == [(sm[|sm| - 1], sf[|sf| - 1])] + rest;
      FirstsSecondsCons((sm[|sm| - 1], sf[|sf| - 1]), rest);
      GenderPairsSeconds(tm, tf);
      assert |tf| - Min(|tm|, |tf|) == j;
      SuffixSnoc(sf, j);
      ElemsSnoc(tf[j..], sf[|sf| - 1]);
    } else {
      assert sf[|sf| - Min(|sm|, |sf|)..] == [];
    }
  }

  /** From lists without repetitions the gender loop pops Min(|sm|, |sf|)
      different users from each side. */
  lemma GenderPairsCount(sm: seq<UserId>, sf: seq<UserId>)
    requires Distinct(sm) && Distinct(sf)
    ensures |Firsts(GenderPairs(sm, sf))| == Min(|sm|, |sf|)
    ensures |Seconds(GenderPairs(sm, sf))| == Min(|sm|, |sf|)
  {
    var k := Min(|sm|, |sf|);
    var ps := GenderPairs(sm, sf);
    var tm, tf := sm[|sm| - k..], sf[|sf| - k..];
    GenderPairsFirsts(sm, sf);
    GenderPairsSeconds(sm, sf);
    assert forall x :: x in tm <==> x in Elems(tm);
    assert forall x :: x in tf <==> x in Elems(tf);
    DistinctSuffix(sm, |sm| - k);
    DistinctSuffix(sf, |sf| - k);
    assert Arranges(tm, Firsts(ps));
    assert Arranges(tf, Seconds(ps));
    ArrangementSize(tm, Firsts(ps));
    ArrangementSize(tf, Seconds(ps));
  }

  /** The gender buckets after one guild's sweep: popped males leave the male
      bucket and popped females the female bucket, but only when both sides had
      someone ready and the guild resolved. */
  function GenderSweep(g: GenderQueues, sm: seq<UserId>, sf: seq<UserId>, guildFound: bool): (r: GenderQueues)
    ensures r.male.Keys <= g.male.Keys && r.female.Keys <= g.female.Keys
  {
    if |sm| >= 1 && |sf| >= 1 && guildFound then
      var ps := GenderPairs(sm, sf);
      GenderQueues(g.male - Firsts(ps), g.female - Seconds(ps))
    else g
  }

  /** One guild's gender sweep, summarised: with M ready males and K ready
      females (both at least one) and a resolving guild it forms Min(M, K)
      pairs, each a ready male with a ready female, removes each user from
      their own bucket only, and leaves |M - K| ready users in the larger
      bucket; otherwise both buckets are untouched. */
  lemma GenderSweepSummary(g: GenderQueues, now: Time, sm: seq<UserId>, sf: seq<UserId>, guildFound: bool)
    requires Arranges(sm, ReadySet(g.male, now))
    requires Arranges(sf, ReadySet(g.female, now))
    ensures var m, k := |ReadySet(g.male, now)|, |ReadySet(g.female, now)|;
            var ps := GenderPairs(sm, sf);
            var g' := GenderSweep(g, sm, sf, guildFound);
            && (m >= 1 && k >= 1 && guildFound ==>
                  && |ps| == Min(m, k)
                  && (forall p :: p in ps ==> p.0 in ReadySet(g.male, now) && p.1 in ReadySet(g.female, now))
                  && SidesDistinct(ps)
                  && g'.male.Keys == g.male.Keys - Firsts(ps)
                  && g'.female.Keys == g.female.Keys - Seconds(ps)
                  && |g'.male| == |g.male| - Min(m, k)
                  && |g'.female| == |g.female| - Min(m, k)
                  && WaitingSet(g'.male, now) == WaitingSet(g.male, now)
                  && WaitingSet(g'.female, now) == WaitingSet(g.female, now)
                  && |ReadySet(g'.male, now)| + |ReadySet(g'.female, now)| == (if m >= k then m - k else k - m)
                  && (m >= k ==> |ReadySet(g'.female, now)| == 0)
                  && (k >= m ==> |ReadySet(g'.male, now)| == 0))
            && (!(m >= 1 && k >= 1 && guildFound) ==> g' == g)
            && (forall u :: u in g'.male ==> u in g.male && g'.male[u] == g.male[u])
            && (forall u :: u in g'.female ==> u in g.female && g'.female[u] == g.female[u])
  {
    var rm, rf := ReadySet(g.male, now), ReadySet(g.female, now);
    ArrangementSize(sm, rm);
    ArrangementSize(sf, rf);
    if |rm| >= 1 && |rf| >= 1 && guildFound {
      var ps := GenderPairs(sm, sf);
      GenderPairsAt(sm, sf);
      GenderPairsSidesDistinct(sm, sf);
      GenderPairsFirsts(sm, sf);
      GenderPairsSeconds(sm, sf);
      GenderPairsCount(sm, sf);
      ArrangesElems(sm, rm, |sm| - Min(|sm|, |sf|));
      ArrangesElems(sf, rf, |sf| - Min(|sm|, |sf|));
      assert Firsts(ps) <= rm;
      assert Seconds(ps) <= rf;
      PopReady(g.male, now, Firsts(ps));
      PopReady(g.female, now, Seconds(ps));
      var g' := GenderQueues(g.male - Firsts(ps), g.female - Seconds(ps));
      var a, b := |ReadySet(g'.male, now)|, |ReadySet(g'.female, now)|;
      assert a == |rm| - Min(|rm|, |rf|) && b == |rf| - Min(|rm|, |rf|);
      if |rm| >= |rf| {
        assert b == 0 && a == |rm| - |rf|;
      } else {
        assert a == 0 && b == |rf| - |rm|;
      }
      forall p | p in ps
        ensures p.0 in rm && p.1 in rf
      {
        assert p.0 in Firsts(ps) && p.1 in Seconds(ps);
      }
    }
  }

  /** Under the admission policy a user is never ready in both buckets; then no
      gender pair joins a user with themselves, and no user is in two pairs. */
  lemma GenderPairsNeverSelf(g: GenderQueues, now: Time, sm: seq<UserId>, sf: seq<UserId>)
    requires Arranges(sm, ReadySet(g.male, now))
    requires Arranges(sf, ReadySet(g.female, now))
    requires ReadySet(g.male, now) !! ReadySet(g.female, now)
    ensures PairwiseDisjoint(GenderPairs(sm, sf))
  {
    var ps := GenderPairs(sm, sf);
    GenderPairsSidesDistinct(sm, sf);
    GenderPairsFirsts(sm, sf);
    GenderPairsSeconds(sm, sf);
    ArrangesElems(sm, ReadySet(g.male, now), |sm| - Min(|sm|, |sf|));
    ArrangesElems(sf, ReadySet(g.female, now), |sf| - Min(|sm|, |sf|));
    forall i, j | 0 <= i < |ps| && 0 <= j < |ps|
      ensures ps[i].0 != ps[j].1
    {
      assert ps[i] in ps && ps[j] in ps;
      assert ps[i].0 in Firsts(ps) && ps[j].1 in Seconds(ps);
    }
  }

  /** Popping the next pair's two users from a bucket. */
  lemma PopNextPair(q0: Bucket, ps: seq<Pair>, i: nat)
    requires i < |ps|
    ensures q0 - PairedUsers(ps[..i + 1]) == q0 - PairedUsers(ps[..i]) - {ps[i].0} - {ps[i].1}
  {
    assert ps[..i + 1] == ps[..i] + [ps[i]];
    assert PairedUsers(ps[..i + 1]) == PairedUsers(ps[..i]) + {ps[i].0, ps[i].1};
  }

  /** Popping the next male and female from the gender buckets. */
  lemma PopNextGenderPair(b0: GenderQueues, ps: seq<Pair>, p: Pair)
    ensures GenderQueues(b0.male - Firsts(ps + [p]), b0.female - Seconds(ps + [p]))
         == GenderQueues(b0.male - Firsts(ps) - {p.0}, b0.female - Seconds(ps) - {p.1})
  {
    assert Firsts(ps + [p]) == Firsts(ps) + {p.0};
    assert Seconds(ps + [p]) == Seconds(ps) + {p.1};
    assert b0.male - Firsts(ps + [p]) == b0.male - Firsts(ps) - {p.0};
    assert b0.female - Seconds(ps + [p]) == b0.female - Seconds(ps) - {p.1};
  }
}
