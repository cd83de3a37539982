/** The weighted instant-runoff tally (`qucalc/src/lib.rs`, `gov::tally_ranked`). Options are
    numbered in the order of their names. */
module Tally {
  import opened Orders
  import opened Sums
  import opened Trust

  type Choice = nat

  type Ballots = map<Member, seq<Choice>>

  function Weight(weights: Levels, m: Member): int {
    if m in weights then weights[m] else 0
  }

  /** The first choice still standing. */
  function FirstStanding(r: seq<Choice>, eliminated: set<Choice>): Option<Choice> {
    if r == [] then None
    else if r[0] !in eliminated then Some(r[0])
    else FirstStanding(r[1..], eliminated)
  }

  function Choices(rankings: Ballots): set<Choice> {
    set m, c | m in rankings && c in rankings[m] :: c
  }

  /** The choices that are somebody's first one standing. */
  function Live(rankings: Ballots, eliminated: set<Choice>): set<Choice> {
    set c | c in Choices(rankings) && IsFirstOfSome(rankings, eliminated, c)
  }

  predicate IsFirstOfSome(rankings: Ballots, eliminated: set<Choice>, c: Choice) {
    exists m :: m in rankings && FirstStanding(rankings[m], eliminated) == Some(c)
  }

  /** The weight behind `c` in the round that starts with `eliminated`. */
  ghost function Count(rankings: Ballots, weights: Levels, eliminated: set<Choice>, c: Choice, members: set<Member>): int
    requires members <= rankings.Keys
  {
    SumSet((m: Member) =>
      if m in rankings && FirstStanding(rankings[m], eliminated) == Some(c) then Weight(weights, m) else 0, members)
  }

  ghost function RoundCount(rankings: Ballots, weights: Levels, eliminated: set<Choice>, c: Choice): int {
    Count(rankings, weights, eliminated, c, rankings.Keys)
  }

  ghost predicate IsTop(rankings: Ballots, weights: Levels, eliminated: set<Choice>, c: Choice) {
    && c in Live(rankings, eliminated)
    && forall d :: d in Live(rankings, eliminated) ==>
         RoundCount(rankings, weights, eliminated, d) <= RoundCount(rankings, weights, eliminated, c)
  }

  ghost predicate IsBottom(rankings: Ballots, weights: Levels, eliminated: set<Choice>, c: Choice) {
    && c in Live(rankings, eliminated)
    && forall d :: d in Live(rankings, eliminated) ==>
         RoundCount(rankings, weights, eliminated, c) <= RoundCount(rankings, weights, eliminated, d)
  }

  ghost function Bottoms(rankings: Ballots, weights: Levels, eliminated: set<Choice>): set<Choice> {
    set c | c in Live(rankings, eliminated) && IsBottom(rankings, weights, eliminated, c)
  }

  ghost function Tops(rankings: Ballots, weights: Levels, eliminated: set<Choice>): set<Choice> {
    set c | c in Live(rankings, eliminated) && IsTop(rankings, weights, eliminated, c)
  }

  lemma {:induction false} LeastExists(s: set<Choice>) returns (c: Choice)
    requires s != {}
    ensures c in s && forall d :: d in s ==> c <= d
    decreases s
  {
    c :| c in s;
    var rest := s - {c};
    if rest != {} {
      var d := LeastExists(rest);
      if d < c { c := d; }
      assert forall e :: e in s ==> e in rest || c <= e;
    } else {
      assert s == {c};
    }
  }

  ghost function Least(s: set<Choice>): (c: Choice)
    requires s != {}
    ensures c in s && forall d :: d in s ==> c <= d
  {
    assert exists c :: c in s && forall d :: d in s ==> c <= d by { var c := LeastExists(s); }
    var c :| c in s && forall d :: d in s ==> c <= d;
    c
  }

  lemma {:induction false} FirstStandingAt(r: seq<Choice>, eliminated: set<Choice>)
    ensures FirstStanding(r, eliminated).Some? ==>
              FirstStanding(r, eliminated).value in r && FirstStanding(r, eliminated).value !in eliminated
    ensures FirstStanding(r, eliminated).None? <==> forall c :: c in r ==> c in eliminated
  {
    if r != [] {
      assert r == [r[0]] + r[1..];
      FirstStandingAt(r[1..], eliminated);
    }
  }

  /** A first choice stays first while others fall. */
  lemma {:induction false} FirstStays(r: seq<Choice>, eliminated: set<Choice>, more: set<Choice>)
    requires FirstStanding(r, eliminated).Some? && FirstStanding(r, eliminated).value !in more
    ensures FirstStanding(r, eliminated + more) == FirstStanding(r, eliminated)
  {
    if r[0] in eliminated { FirstStays(r[1..], eliminated, more); }
  }

  lemma LiveStanding(rankings: Ballots, eliminated: set<Choice>, c: Choice)
    ensures c in Live(rankings, eliminated) <==> IsFirstOfSome(rankings, eliminated, c)
    ensures c in Live(rankings, eliminated) ==> c !in eliminated
  {
    if m :| m in rankings && FirstStanding(rankings[m], eliminated) == Some(c) {
      FirstStandingAt(rankings[m], eliminated);
    }
  }

  lemma {:induction false} ExtremeExists(counts: map<Choice, int>) returns (lo: Choice, hi: Choice)
    requires counts != map[]
    ensures lo in counts && hi in counts
    ensures forall c :: c in counts ==> counts[lo] <= counts[c] <= counts[hi]
    decreases counts.Keys
  {
    var c :| c in counts;
    var rest := counts - {c};
    lo, hi := c, c;
    if rest != map[] {
      assert rest.Keys == counts.Keys - {c};
      var a, b := ExtremeExists(rest);
      if counts[a] < counts[c] { lo := a; }
      if counts[b] > counts[c] { hi := b; }
      assert forall e :: e in counts ==> e == c || e in rest;
    } else {
      assert counts.Keys == {c} by { assert forall e :: e in counts && e != c ==> e in rest; }
    }
  }

  /** In every round with a live choice there is a top and a bottom one. */
  lemma TopAndBottomExist(rankings: Ballots, weights: Levels, eliminated: set<Choice>)
    requires Live(rankings, eliminated) != {}
    ensures Tops(rankings, weights, eliminated) != {} && Bottoms(rankings, weights, eliminated) != {}
  {
    var live := Live(rankings, eliminated);
    hide Live, RoundCount;
    var counts := map c | c in live :: RoundCount(rankings, weights, eliminated, c);
    assert counts.Keys == live;
    var lo, hi := ExtremeExists(counts);
    assert counts[lo] == RoundCount(rankings, weights, eliminated, lo);
    forall d | d in live ensures
      && RoundCount(rankings, weights, eliminated, lo) <= RoundCount(rankings, weights, eliminated, d)
      && RoundCount(rankings, weights, eliminated, d) <= RoundCount(rankings, weights, eliminated, hi)
    {
      assert counts[d] == RoundCount(rankings, weights, eliminated, d);
    }
    assert hi in Tops(rankings, weights, eliminated) && lo in Bottoms(rankings, weights, eliminated);
  }

  lemma BottomsStanding(rankings: Ballots, weights: Levels, eliminated: set<Choice>)
    ensures Bottoms(rankings, weights, eliminated) <= Choices(rankings)
    ensures Bottoms(rankings, weights, eliminated) !! eliminated
  {
    forall c | c in Bottoms(rankings, weights, eliminated) ensures c !in eliminated {
      LiveStanding(rankings, eliminated, c);
    }
  }

  // ----- the reference

  ghost predicate HasMajority(rankings: Ballots, weights: Levels, total: int, eliminated: set<Choice>, c: Choice) {
    c in Live(rankings, eliminated) && RoundCount(rankings, weights, eliminated, c) * 2 > total
  }

  /** Round by round: a majority wins, a full tie goes to the least name, else the bottom choices fall. */
  ghost function Runoff(rankings: Ballots, weights: Levels, total: int, eliminated: set<Choice>): Option<Choice>
    decreases Choices(rankings) - eliminated
  {
    if Live(rankings, eliminated) == {} then None
    else
      TopAndBottomExist(rankings, weights, eliminated);
      BottomsStanding(rankings, weights, eliminated);
      var tops := Tops(rankings, weights, eliminated);
      if (exists c :: HasMajority(rankings, weights, total, eliminated, c)) || tops == Live(rankings, eliminated) then
        Some(Least(tops))
      else Runoff(rankings, weights, total, eliminated + Bottoms(rankings, weights, eliminated))
  }

  // ----- the tally

  function CountIn(counts: map<Choice, int>, c: Choice): int {
    if c in counts then counts[c] else 0
  }

  lemma CountStep(
    rankings: Ballots, weights: Levels, eliminated: set<Choice>, c: Choice, done: set<Member>, m: Member)
    requires done <= rankings.Keys && m in rankings && m !in done
    ensures Count(rankings, weights, eliminated, c, done + {m})
         == Count(rankings, weights, eliminated, c, done)
            + (if FirstStanding(rankings[m], eliminated) == Some(c) then Weight(weights, m) else 0)
  {
    assert done + {m} - {m} == done;
    SumSetRemove((x: Member) =>
      if x in rankings && FirstStanding(rankings[x], eliminated) == Some(c) then Weight(weights, x) else 0,
      done + {m}, m);
  }

  /** Count one round. */
  method CountRound(rankings: Ballots, weights: Levels, eliminated: set<Choice>) returns (counts: map<Choice, int>)
    ensures counts.Keys == Live(rankings, eliminated)
    ensures forall c :: c in counts ==> counts[c] == RoundCount(rankings, weights, eliminated, c)
  {
    hide Count, Weight, Live;
    counts := map[];
    var todo := rankings.Keys;
    ghost var done := {};
    forall c: Choice ensures Count(rankings, weights, eliminated, c, {}) == 0 { CountNone(rankings, weights, eliminated, c); }
    while todo != {}
      invariant todo !! done && todo + done == rankings.Keys
      invariant forall c: Choice :: CountIn(counts, c) == Count(rankings, weights, eliminated, c, done)
      invariant forall c :: c in counts <==> exists m :: m in done && FirstStanding(rankings[m], eliminated) == Some(c)
      decreases todo
    {
      var m :| m in todo;
      var first := FirstStanding(rankings[m], eliminated);
      forall c: Choice ensures Count(rankings, weights, eliminated, c, done + {m})
        == Count(rankings, weights, eliminated, c, done) + (if first == Some(c) then Weight(weights, m) else 0)
      {
        CountStep(rankings, weights, eliminated, c, done, m);
      }
      if first.Some? {
        counts := counts[first.value := CountIn(counts, first.value) + Weight(weights, m)];
      }
      todo, done := todo - {m}, done + {m};
    }
    assert done == rankings.Keys;
    forall c: Choice ensures c in counts <==> c in Live(rankings, eliminated) { LiveStanding(rankings, eliminated, c); }
  }

  lemma CountNone(rankings: Ballots, weights: Levels, eliminated: set<Choice>, c: Choice)
    ensures Count(rankings, weights, eliminated, c, {}) == 0
  {
  }

  /** The highest and the lowest count. */
  method Extremes(counts: map<Choice, int>) returns (lo: int, hi: int)
    requires counts != map[]
    ensures (exists c :: c in counts && counts[c] == lo) && (exists c :: c in counts && counts[c] == hi)
    ensures forall c :: c in counts ==> lo <= counts[c] <= hi
  {
    var c :| c in counts;
    lo, hi := counts[c], counts[c];
    var todo := counts.Keys - {c};
    while todo != {}
      invariant todo <= counts.Keys
      invariant (exists d :: d in counts && counts[d] == lo) && (exists d :: d in counts && counts[d] == hi)
      invariant forall d :: d in counts && d !in todo ==> lo <= counts[d] <= hi
      decreases todo
    {
      var d :| d in todo;
      if counts[d] < lo { lo := counts[d]; }
      if counts[d] > hi { hi := counts[d]; }
      todo := todo - {d};
    }
  }

  /** The least name among the choices with the given count. */
  method LeastWith(counts: map<Choice, int>, n: int) returns (least: Choice)
    requires exists c :: c in counts && counts[c] == n
    ensures least in counts && counts[least] == n && forall c :: c in counts && counts[c] == n ==> least <= c
  {
    least :| least in counts && counts[least] == n;
    var todo := counts.Keys;
    while todo != {}
      invariant todo <= counts.Keys && least in counts && counts[least] == n
      invariant forall c :: c in counts && c !in todo && counts[c] == n ==> least <= c
      decreases todo
    {
      var c :| c in todo;
      if counts[c] == n && c < least { least := c; }
      todo := todo - {c};
    }
  }

  /** The total weight of the ballots that carry any. */
  ghost function Total(ballots: Ballots, weights: Levels, members: set<Member>): int {
    SumSet((m: Member) => Max(Weight(weights, m), 0), members)
  }

  function NonEmpty(ballots: Ballots): Ballots {
    map m | m in ballots && ballots[m] != [] :: ballots[m]
  }

  method SumPositive(ballots: Ballots, weights: Levels) returns (total: int)
    ensures total == Total(ballots, weights, ballots.Keys)
  {
    total := 0;
    var todo := ballots.Keys;
    ghost var done := {};
    while todo != {}
      invariant todo !! done && todo + done == ballots.Keys && total == Total(ballots, weights, done)
      decreases todo
    {
      var m :| m in todo;
      if Weight(weights, m) > 0 { total := total + Weight(weights, m); }
      SumSetRemove((x: Member) => Max(Weight(weights, x), 0), done + {m}, m);
      assert done + {m} - {m} == done;
      todo, done := todo - {m}, done + {m};
    }
    assert done == ballots.Keys;
  }

  method TallyRanked(ballots: Ballots, weights: Levels) returns (winner: Option<Choice>)
    ensures winner == if Total(ballots, weights, ballots.Keys) <= 0 then None
                      else Runoff(NonEmpty(ballots), weights, Total(ballots, weights, ballots.Keys), {})
    ensures winner.Some? <==> Total(ballots, weights, ballots.Keys) > 0 && exists m :: m in ballots && ballots[m] != []
  {
    hide Live, RoundCount, Total;
    var total := SumPositive(ballots, weights);
    WinnerIff(ballots, weights, total);
    if total <= 0 { return None; }
    var rankings, eliminated := NonEmpty(ballots), {};
    while true
      invariant Runoff(rankings, weights, total, {}) == Runoff(rankings, weights, total, eliminated)
      decreases Choices(rankings) - eliminated
    {
      var counts := CountRound(rankings, weights, eliminated);
      if counts == map[] { return None; }
      var lo, hi := Extremes(counts);
      RoundReads(rankings, weights, total, eliminated, counts, lo, hi);
      if hi * 2 > total || lo == hi {
        var least := LeastWith(counts, hi);
        LeastIs(Tops(rankings, weights, eliminated), least);
        return Some(least);
      }
      BottomsStanding(rankings, weights, eliminated);
      var fallen := set c | c in counts && counts[c] == lo;
      assert fallen == Bottoms(rankings, weights, eliminated);
      RunoffStep(rankings, weights, total, eliminated);
      eliminated := eliminated + fallen;
    }
  }

  lemma RunoffStep(rankings: Ballots, weights: Levels, total: int, eliminated: set<Choice>)
    requires Live(rankings, eliminated) != {} && Tops(rankings, weights, eliminated) != Live(rankings, eliminated)
    requires !exists c :: HasMajority(rankings, weights, total, eliminated, c)
    ensures Runoff(rankings, weights, total, eliminated)
         == Runoff(rankings, weights, total, eliminated + Bottoms(rankings, weights, eliminated))
  {
    hide RoundCount, IsTop, IsBottom, Live;
  }

  lemma LeastIs(s: set<Choice>, c: Choice)
    requires c in s && forall d :: d in s ==> c <= d
    ensures Least(s) == c
  {
  }

  /** What the counts of a round say about its tops and bottoms. */
  lemma RoundReads(rankings: Ballots, weights: Levels, total: int, eliminated: set<Choice>, counts: map<Choice, int>,
                   lo: int, hi: int)
    requires counts.Keys == Live(rankings, eliminated) && counts != map[]
    requires forall c :: c in counts ==> counts[c] == RoundCount(rankings, weights, eliminated, c)
    requires (exists c :: c in counts && counts[c] == lo) && (exists c :: c in counts && counts[c] == hi)
    requires forall c :: c in counts ==> lo <= counts[c] <= hi
    ensures Bottoms(rankings, weights, eliminated) == set c | c in counts && counts[c] == lo
    ensures Tops(rankings, weights, eliminated) == set c | c in counts && counts[c] == hi
    ensures Bottoms(rankings, weights, eliminated) != {}
    ensures hi * 2 > total <==> exists c :: HasMajority(rankings, weights, total, eliminated, c)
    ensures lo == hi <==> Tops(rankings, weights, eliminated) == Live(rankings, eliminated)
  {
    hide Live, RoundCount, Bottoms, Tops, IsTop, IsBottom;
    var a :| a in counts && counts[a] == lo;
    var b :| b in counts && counts[b] == hi;
    BottomsRead(rankings, weights, eliminated, counts, lo, a);
    TopsRead(rankings, weights, eliminated, counts, hi, b);
    assert a in Bottoms(rankings, weights, eliminated);
    if hi * 2 > total { assert HasMajority(rankings, weights, total, eliminated, b); }
    if lo == hi { assert Tops(rankings, weights, eliminated) == counts.Keys; }
  }

  lemma BottomsRead(
    rankings: Ballots, weights: Levels, eliminated: set<Choice>, counts: map<Choice, int>, lo: int, a: Choice)
    requires counts.Keys == Live(rankings, eliminated)
    requires forall c :: c in counts ==> counts[c] == RoundCount(rankings, weights, eliminated, c) >= lo
    requires a in counts && counts[a] == lo
    ensures Bottoms(rankings, weights, eliminated) == set c | c in counts && counts[c] == lo
  {
    hide Live, RoundCount;
    forall c ensures c in Bottoms(rankings, weights, eliminated) <==> c in counts && counts[c] == lo {
      if c in counts { assert counts[c] == RoundCount(rankings, weights, eliminated, c); }
    }
  }

  lemma TopsRead(
    rankings: Ballots, weights: Levels, eliminated: set<Choice>, counts: map<Choice, int>, hi: int, b: Choice)
    requires counts.Keys == Live(rankings, eliminated)
    requires forall c :: c in counts ==> counts[c] == RoundCount(rankings, weights, eliminated, c) <= hi
    requires b in counts && counts[b] == hi
    ensures Tops(rankings, weights, eliminated) == set c | c in counts && counts[c] == hi
  {
    hide Live, RoundCount;
    forall c ensures c in Tops(rankings, weights, eliminated) <==> c in counts && counts[c] == hi {
      if c in counts { assert counts[c] == RoundCount(rankings, weights, eliminated, c); }
    }
  }

  // ----- what the tally guarantees

  /** A round keeps a live choice: the tops are not all eliminated unless all are tied. */
  lemma LiveSurvives(rankings: Ballots, weights: Levels, eliminated: set<Choice>)
    requires Live(rankings, eliminated) != {}
    requires Tops(rankings, weights, eliminated) != Live(rankings, eliminated)
    ensures Live(rankings, eliminated + Bottoms(rankings, weights, eliminated)) != {}
  {
    hide RoundCount;
    TopAndBottomExist(rankings, weights, eliminated);
    var c :| c in Tops(rankings, weights, eliminated);
    var bottoms := Bottoms(rankings, weights, eliminated);
    assert c !in bottoms;
    LiveStanding(rankings, eliminated, c);
    var m :| m in rankings && FirstStanding(rankings[m], eliminated) == Some(c);
    FirstStays(rankings[m], eliminated, bottoms);
    LiveStanding(rankings, eliminated + bottoms, c);
    assert c in Live(rankings, eliminated + bottoms);
  }

  lemma {:induction false} RunoffDecides(rankings: Ballots, weights: Levels, total: int, eliminated: set<Choice>)
    ensures Runoff(rankings, weights, total, eliminated).Some? <==> Live(rankings, eliminated) != {}
    ensures Runoff(rankings, weights, total, eliminated).Some? ==>
              Runoff(rankings, weights, total, eliminated).value in Choices(rankings) - eliminated
    decreases Choices(rankings) - eliminated
  {
    hide RoundCount, IsTop, IsBottom;
    if Live(rankings, eliminated) != {} {
      TopAndBottomExist(rankings, weights, eliminated);
      BottomsStanding(rankings, weights, eliminated);
      LiveStanding(rankings, eliminated, Least(Tops(rankings, weights, eliminated)));
      if !(exists c :: HasMajority(rankings, weights, total, eliminated, c))
         && Tops(rankings, weights, eliminated) != Live(rankings, eliminated) {
        LiveSurvives(rankings, weights, eliminated);
        RunoffDecides(rankings, weights, total, eliminated + Bottoms(rankings, weights, eliminated));
      }
    }
  }

  /** There is a winner exactly when some ballot ranks a choice. */
  lemma WinnerIff(ballots: Ballots, weights: Levels, total: int)
    ensures Runoff(NonEmpty(ballots), weights, total, {}).Some? <==> exists m :: m in ballots && ballots[m] != []
  {
    hide Runoff;
    var rankings := NonEmpty(ballots);
    RunoffDecides(rankings, weights, total, {});
    if m :| m in ballots && ballots[m] != [] {
      assert m in rankings && FirstStanding(rankings[m], {}) == Some(ballots[m][0]);
      LiveStanding(rankings, {}, ballots[m][0]);
    }
  }

  predicate NoNegativeWeight(ballots: Ballots, weights: Levels) {
    forall m :: m in ballots ==> Weight(weights, m) >= 0
  }

  /** Two different choices together hold at most the total. */
  lemma TwoCountsFit(ballots: Ballots, weights: Levels, eliminated: set<Choice>, c: Choice, d: Choice)
    requires NoNegativeWeight(ballots, weights) && c != d
    ensures RoundCount(NonEmpty(ballots), weights, eliminated, c) + RoundCount(NonEmpty(ballots), weights, eliminated, d)
         <= Total(ballots, weights, ballots.Keys)
  {
    var rankings := NonEmpty(ballots);
    var f := (m: Member) =>
      if m in rankings && FirstStanding(rankings[m], eliminated) == Some(c) then Weight(weights, m) else 0;
    var g := (m: Member) =>
      if m in rankings && FirstStanding(rankings[m], eliminated) == Some(d) then Weight(weights, m) else 0;
    var h := (m: Member) => f(m) + g(m);
    var all := (m: Member) => Max(Weight(weights, m), 0);
    SumSetAdd<Member>(f, g, h, rankings.Keys);
    SumSetBelow<Member>(h, all, rankings.Keys, ballots.Keys);
  }

  /** At most one choice passes the majority test in any round. */
  lemma OneMajority(ballots: Ballots, weights: Levels, eliminated: set<Choice>, c: Choice, d: Choice)
    requires NoNegativeWeight(ballots, weights)
    requires HasMajority(NonEmpty(ballots), weights, Total(ballots, weights, ballots.Keys), eliminated, c)
    requires HasMajority(NonEmpty(ballots), weights, Total(ballots, weights, ballots.Keys), eliminated, d)
    ensures c == d
  {
    if c != d { TwoCountsFit(ballots, weights, eliminated, c, d); }
  }

  /** A majority in any round that is reached, and so a majority of first preferences, wins. */
  lemma MajorityWins(ballots: Ballots, weights: Levels, eliminated: set<Choice>, c: Choice)
    requires NoNegativeWeight(ballots, weights)
    requires HasMajority(NonEmpty(ballots), weights, Total(ballots, weights, ballots.Keys), eliminated, c)
    ensures Runoff(NonEmpty(ballots), weights, Total(ballots, weights, ballots.Keys), eliminated) == Some(c)
  {
    hide RoundCount, Total, Live;
    var rankings, total := NonEmpty(ballots), Total(ballots, weights, ballots.Keys);
    TopAndBottomExist(rankings, weights, eliminated);
    var tops := Tops(rankings, weights, eliminated);
    forall d | d in tops ensures d == c {
      assert HasMajority(rankings, weights, total, eliminated, d);
      OneMajority(ballots, weights, eliminated, c, d);
    }
  }

  // ----- majority coalitions

  ghost function GroupWeight(weights: Levels, group: set<Member>): int {
    SumSet((m: Member) => Weight(weights, m), group)
  }

  /** Everyone in `group` ranks all of `coalition`, and ranks it before anything else. */
  ghost predicate Solid(ballots: Ballots, group: set<Member>, coalition: set<Choice>) {
    && group <= ballots.Keys
    && (forall m, c :: m in group && c in coalition ==> c in ballots[m])
    && (forall m, i, c :: m in group && 0 <= i < |ballots[m]| && ballots[m][i] !in coalition && c in coalition ==>
          c in ballots[m][..i])
  }

  /** A solid group that holds more than half the weight. */
  ghost predicate MajorityCoalition(ballots: Ballots, weights: Levels, group: set<Member>, coalition: set<Choice>) {
    && Solid(ballots, group, coalition)
    && GroupWeight(weights, group) * 2 > Total(ballots, weights, ballots.Keys)
  }

  lemma {:induction false} FirstIndex(r: seq<Choice>, eliminated: set<Choice>) returns (i: nat)
    requires FirstStanding(r, eliminated).Some?
    ensures i < |r| && FirstStanding(r, eliminated) == Some(r[i]) && forall c :: c in r[..i] ==> c in eliminated
  {
    if r[0] !in eliminated {
      i := 0;
    } else {
      var k := FirstIndex(r[1..], eliminated);
      i := k + 1;
      assert r[..i] == [r[0]] + r[1..][..k];
    }
  }

  /** While part of the coalition stands, the group's first choices are in it. */
  lemma GroupStays(ballots: Ballots, weights: Levels, group: set<Member>, coalition: set<Choice>, eliminated: set<Choice>,
                   m: Member)
    requires MajorityCoalition(ballots, weights, group, coalition) && !(coalition <= eliminated) && m in group
    ensures m in NonEmpty(ballots)
    ensures var first := FirstStanding(ballots[m], eliminated);
            first.Some? && first.value in coalition && first.value !in eliminated
  {
    hide GroupWeight, Total;
    var c :| c in coalition && c !in eliminated;
    assert c in ballots[m];
    FirstStandingAt(ballots[m], eliminated);
    var i := FirstIndex(ballots[m], eliminated);
    assert c in coalition && c !in ballots[m][..i];
  }

  /** Nothing outside a standing coalition can have a majority. */
  lemma OutsiderFits(ballots: Ballots, weights: Levels, group: set<Member>, coalition: set<Choice>, eliminated: set<Choice>,
                     d: Choice)
    requires NoNegativeWeight(ballots, weights)
    requires MajorityCoalition(ballots, weights, group, coalition) && !(coalition <= eliminated) && d !in coalition
    ensures RoundCount(NonEmpty(ballots), weights, eliminated, d) + GroupWeight(weights, group)
         <= Total(ballots, weights, ballots.Keys)
  {
    var rankings := NonEmpty(ballots);
    var f := (m: Member) =>
      if m in rankings && FirstStanding(rankings[m], eliminated) == Some(d) then Weight(weights, m) else 0;
    var g := (m: Member) => if m in group then Weight(weights, m) else 0;
    var h := (m: Member) => f(m) + g(m);
    var all := (m: Member) => Max(Weight(weights, m), 0);
    forall m | m in group ensures m in rankings && f(m) == 0 {
      GroupStays(ballots, weights, group, coalition, eliminated, m);
    }
    SumSetAdd<Member>(f, g, h, rankings.Keys);
    SumSetBelow<Member>(h, all, rankings.Keys, ballots.Keys);
    SumSetBelow<Member>((m: Member) => Weight(weights, m), g, group, rankings.Keys);
  }

  lemma GroupNotEmpty(ballots: Ballots, weights: Levels, group: set<Member>, coalition: set<Choice>)
    requires MajorityCoalition(ballots, weights, group, coalition)
    ensures group != {}
  {
    SumSetNonNegative<Member>((m: Member) => Max(Weight(weights, m), 0), ballots.Keys);
  }

  /** While part of the coalition stands, one of its choices is live. */
  lemma CoalitionLive(ballots: Ballots, weights: Levels, group: set<Member>, coalition: set<Choice>, eliminated: set<Choice>)
    returns (c: Choice)
    requires MajorityCoalition(ballots, weights, group, coalition) && !(coalition <= eliminated)
    ensures c in coalition && c in Live(NonEmpty(ballots), eliminated)
  {
    GroupNotEmpty(ballots, weights, group, coalition);
    var m :| m in group;
    GroupStays(ballots, weights, group, coalition, eliminated, m);
    c := FirstStanding(ballots[m], eliminated).value;
    hide MajorityCoalition, Live;
    LiveStanding(NonEmpty(ballots), eliminated, c);
  }

  /** In every round up to the decision some of the coalition is left, and a full tie has its least name in it. */
  ghost predicate CoalitionStands(
    rankings: Ballots, weights: Levels, total: int, eliminated: set<Choice>, coalition: set<Choice>)
    decreases Choices(rankings) - eliminated
  {
    Live(rankings, eliminated) != {}
    && (TopAndBottomExist(rankings, weights, eliminated);
        BottomsStanding(rankings, weights, eliminated);
        var tops, fallen := Tops(rankings, weights, eliminated), eliminated + Bottoms(rankings, weights, eliminated);
        if exists c :: HasMajority(rankings, weights, total, eliminated, c) then true
        else if tops == Live(rankings, eliminated) then Least(tops) in coalition
        else !(coalition <= fallen) && CoalitionStands(rankings, weights, total, fallen, coalition))
  }

  /** The winner is in a standing majority coalition exactly when the coalition is never eliminated whole and
      loses no full tie. */
  lemma {:induction false} CoalitionWinsIff(
    ballots: Ballots, weights: Levels, group: set<Member>, coalition: set<Choice>, eliminated: set<Choice>)
    requires NoNegativeWeight(ballots, weights)
    requires MajorityCoalition(ballots, weights, group, coalition) && !(coalition <= eliminated)
    ensures var rankings, total := NonEmpty(ballots), Total(ballots, weights, ballots.Keys);
            && Runoff(rankings, weights, total, eliminated).Some?
            && (Runoff(rankings, weights, total, eliminated).value in coalition
                <==> CoalitionStands(rankings, weights, total, eliminated, coalition))
    decreases Choices(NonEmpty(ballots)) - eliminated
  {
    hide Live, RoundCount, Total, GroupWeight, MajorityCoalition, IsTop, IsBottom, Choices;
    var rankings, total := NonEmpty(ballots), Total(ballots, weights, ballots.Keys);
    var c := CoalitionLive(ballots, weights, group, coalition, eliminated);
    TopAndBottomExist(rankings, weights, eliminated);
    BottomsStanding(rankings, weights, eliminated);
    var fallen := eliminated + Bottoms(rankings, weights, eliminated);
    if d :| HasMajority(rankings, weights, total, eliminated, d) {
      MajorityWins(ballots, weights, eliminated, d);
      MajorityInCoalition(ballots, weights, group, coalition, eliminated, d);
    } else if Tops(rankings, weights, eliminated) != Live(rankings, eliminated) {
      RunoffDecides(rankings, weights, total, eliminated);
      RunoffDecides(rankings, weights, total, fallen);
      if !(coalition <= fallen) { CoalitionWinsIff(ballots, weights, group, coalition, fallen); }
    }
  }

  lemma MajorityInCoalition(ballots: Ballots, weights: Levels, group: set<Member>, coalition: set<Choice>,
                            eliminated: set<Choice>, d: Choice)
    requires NoNegativeWeight(ballots, weights)
    requires MajorityCoalition(ballots, weights, group, coalition) && !(coalition <= eliminated)
    requires HasMajority(NonEmpty(ballots), weights, Total(ballots, weights, ballots.Keys), eliminated, d)
    ensures d in coalition
  {
    hide RoundCount, Live, Total, GroupWeight, Solid;
    if d !in coalition { OutsiderFits(ballots, weights, group, coalition, eliminated, d); }
  }

  /** No two separate groups of voters have the same weight. */
  ghost predicate Untied(ballots: Ballots, weights: Levels) {
    forall a, b :: a <= ballots.Keys && b <= ballots.Keys && a !! b && a != {} && b != {} ==>
      GroupWeight(weights, a) != GroupWeight(weights, b)
  }

  function Voters(rankings: Ballots, eliminated: set<Choice>, c: Choice): set<Member> {
    set m | m in rankings && FirstStanding(rankings[m], eliminated) == Some(c)
  }

  lemma CountIsGroup(rankings: Ballots, weights: Levels, eliminated: set<Choice>, c: Choice)
    ensures RoundCount(rankings, weights, eliminated, c) == GroupWeight(weights, Voters(rankings, eliminated, c))
  {
    var f := (m: Member) =>
      if m in rankings && FirstStanding(rankings[m], eliminated) == Some(c) then Weight(weights, m) else 0;
    var voters := Voters(rankings, eliminated, c);
    SumSetSupport<Member>(f, voters, rankings.Keys);
    SumSetSame<Member>(f, (m: Member) => Weight(weights, m), voters);
  }

  lemma DistinctCounts(ballots: Ballots, weights: Levels, eliminated: set<Choice>, c: Choice, d: Choice)
    requires Untied(ballots, weights) && c != d
    requires c in Live(NonEmpty(ballots), eliminated) && d in Live(NonEmpty(ballots), eliminated)
    ensures RoundCount(NonEmpty(ballots), weights, eliminated, c) != RoundCount(NonEmpty(ballots), weights, eliminated, d)
  {
    hide RoundCount, GroupWeight;
    var rankings := NonEmpty(ballots);
    CountIsGroup(rankings, weights, eliminated, c);
    CountIsGroup(rankings, weights, eliminated, d);
    LiveStanding(rankings, eliminated, c);
    LiveStanding(rankings, eliminated, d);
    var a, b := Voters(rankings, eliminated, c), Voters(rankings, eliminated, d);
    var m :| m in rankings && FirstStanding(rankings[m], eliminated) == Some(c);
    var n :| n in rankings && FirstStanding(rankings[n], eliminated) == Some(d);
    assert m in a && n in b;
    assert a !! b && a <= ballots.Keys && b <= ballots.Keys;
  }

  /** The last standing choice of a majority coalition has a majority. */
  lemma LastOfCoalition(ballots: Ballots, weights: Levels, group: set<Member>, coalition: set<Choice>,
                        eliminated: set<Choice>, b: Choice)
    requires NoNegativeWeight(ballots, weights)
    requires MajorityCoalition(ballots, weights, group, coalition) && !(coalition <= eliminated)
    requires forall c :: c in coalition && c !in eliminated ==> c == b
    ensures HasMajority(NonEmpty(ballots), weights, Total(ballots, weights, ballots.Keys), eliminated, b)
  {
    var rankings := NonEmpty(ballots);
    var c := CoalitionLive(ballots, weights, group, coalition, eliminated);
    LiveStanding(rankings, eliminated, c);
    var f := (m: Member) =>
      if m in rankings && FirstStanding(rankings[m], eliminated) == Some(b) then Weight(weights, m) else 0;
    forall m | m in group ensures m in rankings && f(m) == Weight(weights, m) {
      GroupStays(ballots, weights, group, coalition, eliminated, m);
    }
    hide Live, Total, Solid;
    SumSetBelow<Member>((m: Member) => Weight(weights, m), f, group, rankings.Keys);
  }

  lemma {:induction false} UntiedStands(
    ballots: Ballots, weights: Levels, group: set<Member>, coalition: set<Choice>, eliminated: set<Choice>)
    requires NoNegativeWeight(ballots, weights) && Untied(ballots, weights)
    requires MajorityCoalition(ballots, weights, group, coalition) && !(coalition <= eliminated)
    ensures CoalitionStands(NonEmpty(ballots), weights, Total(ballots, weights, ballots.Keys), eliminated, coalition)
    decreases Choices(NonEmpty(ballots)) - eliminated
  {
    hide Live, RoundCount, Total, GroupWeight, MajorityCoalition, Choices, Untied, NoNegativeWeight;
    var rankings, total := NonEmpty(ballots), Total(ballots, weights, ballots.Keys);
    var c := CoalitionLive(ballots, weights, group, coalition, eliminated);
    LiveStanding(rankings, eliminated, c);
    TopAndBottomExist(rankings, weights, eliminated);
    BottomsStanding(rankings, weights, eliminated);
    var tops, bottoms := Tops(rankings, weights, eliminated), Bottoms(rankings, weights, eliminated);
    if !exists d :: HasMajority(rankings, weights, total, eliminated, d) {
      if tops == Live(rankings, eliminated) {
        if Least(tops) != c { DistinctCounts(ballots, weights, eliminated, Least(tops), c); }
      } else {
        if coalition <= eliminated + bottoms {
          forall d | d in coalition && d !in eliminated ensures d == c {
            if d != c { DistinctCounts(ballots, weights, eliminated, d, c); }
          }
          LastOfCoalition(ballots, weights, group, coalition, eliminated, c);
        }
        UntiedStands(ballots, weights, group, coalition, eliminated + bottoms);
      }
    }
  }

  /** Without ties between groups of voters, a majority that agrees on a coalition gets one of its choices. */
  lemma MajorityCoalitionWins(ballots: Ballots, weights: Levels, group: set<Member>, coalition: set<Choice>)
    requires NoNegativeWeight(ballots, weights) && Untied(ballots, weights)
    requires MajorityCoalition(ballots, weights, group, coalition) && coalition != {}
    ensures var winner := Runoff(NonEmpty(ballots), weights, Total(ballots, weights, ballots.Keys), {});
            winner.Some? && winner.value in coalition
  {
    hide Runoff, CoalitionStands, MajorityCoalition, Untied;
    UntiedStands(ballots, weights, group, coalition, {});
    CoalitionWinsIff(ballots, weights, group, coalition, {});
  }

  // ----- a coalition that falls whole

  const SplitBallots: Ballots := map[0 := [0, 1], 1 := [1, 0], 2 := [2]]

  const SplitWeights: Levels := map[0 := 3, 1 := 3, 2 := 4]

  lemma SumThree(f: Member -> int)
    ensures SumSet(f, {0, 1, 2}) == f(0) + f(1) + f(2)
  {
    SumSetRemove(f, {0, 1, 2}, 0);
    assert {0, 1, 2} - {0} == {1, 2};
    SumSetRemove(f, {1, 2}, 1);
    assert {1, 2} - {1} == {2};
    SumSetRemove(f, {2}, 2);
    assert {2} - {2} == {};
  }

  lemma SplitFirsts()
    ensures NonEmpty(SplitBallots) == SplitBallots && SplitBallots.Keys == {0, 1, 2}
    ensures FirstStanding(SplitBallots[0], {}) == Some(0) && FirstStanding(SplitBallots[1], {}) == Some(1)
    ensures FirstStanding(SplitBallots[2], {}) == Some(2) && FirstStanding(SplitBallots[2], {0, 1}) == Some(2)
    ensures FirstStanding(SplitBallots[0], {0, 1}) == None && FirstStanding(SplitBallots[1], {0, 1}) == None
  {
    assert [0, 1][1..] == [1] && [1, 0][1..] == [0] && [1][1..] == [] && [0][1..] == [];
    assert FirstStanding([1], {0, 1}) == None && FirstStanding([0], {0, 1}) == None;
  }

  lemma SplitCounts()
    ensures RoundCount(SplitBallots, SplitWeights, {}, 0) == 3 && RoundCount(SplitBallots, SplitWeights, {}, 1) == 3
    ensures RoundCount(SplitBallots, SplitWeights, {}, 2) == 4 && RoundCount(SplitBallots, SplitWeights, {0, 1}, 2) == 4
    ensures Total(SplitBallots, SplitWeights, SplitBallots.Keys) == 10 && GroupWeight(SplitWeights, {0, 1}) == 6
  {
    SplitFirsts();
    forall e, c: Choice ensures RoundCount(SplitBallots, SplitWeights, e, c)
                            == (if FirstStanding(SplitBallots[0], e) == Some(c) then 3 else 0)
                               + (if FirstStanding(SplitBallots[1], e) == Some(c) then 3 else 0)
                               + (if FirstStanding(SplitBallots[2], e) == Some(c) then 4 else 0)
    {
      SumThree((m: Member) =>
        if m in SplitBallots && FirstStanding(SplitBallots[m], e) == Some(c) then Weight(SplitWeights, m) else 0);
    }
    SumThree((m: Member) => Max(Weight(SplitWeights, m), 0));
    SumSetRemove((m: Member) => Weight(SplitWeights, m), {0, 1}, 0);
    assert {0, 1} - {0} == {1};
    SumSetRemove((m: Member) => Weight(SplitWeights, m), {1}, 1);
    assert {1} - {1} == {};
  }

  lemma SplitLive()
    ensures Live(SplitBallots, {}) == {0, 1, 2} && Live(SplitBallots, {0, 1}) == {2}
  {
    SplitFirsts();
    hide Live, FirstStanding;
    forall c ensures c in Live(SplitBallots, {}) <==> c in {0, 1, 2} { LiveStanding(SplitBallots, {}, c); }
    forall c ensures c in Live(SplitBallots, {0, 1}) <==> c in {2} { LiveStanding(SplitBallots, {0, 1}, c); }
  }

  /** Six of ten prefer 0 and 1 to 2, but 0 and 1 tie for the last place, fall together, and 2 wins. */
  lemma SplitCoalitionLoses()
    ensures MajorityCoalition(SplitBallots, SplitWeights, {0, 1}, {0, 1})
    ensures Runoff(NonEmpty(SplitBallots), SplitWeights, Total(SplitBallots, SplitWeights, SplitBallots.Keys), {}) == Some(2)
  {
    SplitFirsts();
    SplitCounts();
    SplitLive();
    hide Live, RoundCount, FirstStanding, Total, GroupWeight, NonEmpty;
    assert Solid(SplitBallots, {0, 1}, {0, 1}) by { assert 0 in [0, 1] && 1 in [0, 1] && 0 in [1, 0] && 1 in [1, 0]; }
    assert Tops(SplitBallots, SplitWeights, {}) == {2} && Bottoms(SplitBallots, SplitWeights, {}) == {0, 1};
    assert Tops(SplitBallots, SplitWeights, {0, 1}) == {2};
    assert {} + {0, 1} == {0, 1};
    assert Runoff(SplitBallots, SplitWeights, 10, {0, 1}) == Some(2);
    RunoffStep(SplitBallots, SplitWeights, 10, {});
  }
}
