/** The admin-rooted web of trust (`qucalc/src/lib.rs`, `gov::trust_levels`). The bounded
    relaxation always reaches the one solution of "admins are 5, everyone else the best
    conferral from a strictly higher member". */
module Trust {

  type Member = nat

  datatype Rating = Rating(rater: Member, ratee: Member, value: int)

  type Levels = map<Member, int>

  function Max(a: int, b: int): int { if a < b then b else a }

  function Min(a: int, b: int): int { if a < b then a else b }

  function Universe(ratings: seq<Rating>, admins: seq<Member>): set<Member> {
    (set i | 0 <= i < |ratings| :: ratings[i].rater) + (set i | 0 <= i < |ratings| :: ratings[i].ratee)
    + (set a | a in admins)
  }

  // ----- the reference: levels by thresholds

  /** `r` confers level `k` or more on `m`, if `r` itself has more than `k`. */
  predicate Vouches(ratings: seq<Rating>, r: Member, m: Member, k: int) {
    r != m && exists i :: 0 <= i < |ratings| && ratings[i].rater == r && ratings[i].ratee == m && ratings[i].value >= k
  }

  /** `m` has level `k` or more: an admin, or vouched for at `k` by someone of level `k + 1` or more. */
  ghost predicate AtLeast(ratings: seq<Rating>, admins: seq<Member>, m: Member, k: nat)
    requires 1 <= k <= 5
    decreases 5 - k
  {
    m in admins || (k < 5 && exists r :: Vouches(ratings, r, m, k) && AtLeast(ratings, admins, r, k + 1))
  }

  ghost function Level(ratings: seq<Rating>, admins: seq<Member>, m: Member): (l: nat)
    ensures l <= 5
    ensures l > 0 ==> AtLeast(ratings, admins, m, l)
  {
    if AtLeast(ratings, admins, m, 5) then 5
    else if AtLeast(ratings, admins, m, 4) then 4
    else if AtLeast(ratings, admins, m, 3) then 3
    else if AtLeast(ratings, admins, m, 2) then 2
    else if AtLeast(ratings, admins, m, 1) then 1
    else 0
  }

  lemma {:induction false} AtLeastLower(ratings: seq<Rating>, admins: seq<Member>, m: Member, k: nat)
    requires 1 <= k < 5 && AtLeast(ratings, admins, m, k + 1)
    ensures AtLeast(ratings, admins, m, k)
    decreases 5 - k
  {
    if m !in admins {
      var r :| Vouches(ratings, r, m, k + 1) && AtLeast(ratings, admins, r, k + 2);
      AtLeastLower(ratings, admins, r, k + 1);
      assert Vouches(ratings, r, m, k);
    }
  }

  /** Thresholds and levels say the same. */
  lemma {:induction false} LevelAtLeast(ratings: seq<Rating>, admins: seq<Member>, m: Member, k: nat)
    requires 1 <= k <= 5
    ensures Level(ratings, admins, m) >= k <==> AtLeast(ratings, admins, m, k)
    decreases 5 - k
  {
    if k < 5 {
      LevelAtLeast(ratings, admins, m, k + 1);
      if AtLeast(ratings, admins, m, k + 1) { AtLeastLower(ratings, admins, m, k); }
    }
  }

  /** Admins have level 5, and nobody else. */
  lemma AdminLevel(ratings: seq<Rating>, admins: seq<Member>, m: Member)
    ensures Level(ratings, admins, m) == 5 <==> m in admins
  {
  }

  // ----- the relaxation

  /** What a rating confers: strictly below the rater's own level. */
  function Conferred(lr: int, value: int): int {
    if lr >= 1 then Max(Min(value, lr - 1), 0) else 0
  }

  function Confer(level: Levels, x: Rating): Levels
    requires x.rater in level && x.ratee in level
  {
    if x.rater == x.ratee then level
    else level[x.ratee := Max(level[x.ratee], Conferred(level[x.rater], x.value))]
  }

  ghost predicate Covers(level: Levels, ratings: seq<Rating>) {
    forall i :: 0 <= i < |ratings| ==> ratings[i].rater in level && ratings[i].ratee in level
  }

  /** One pass over the ratings, each update visible to the next. */
  function Pass(level: Levels, ratings: seq<Rating>): (r: Levels)
    requires Covers(level, ratings)
    ensures r.Keys == level.Keys
    ensures forall m :: m in level ==> r[m] >= level[m]
  {
    if ratings == [] then level
    else Confer(Pass(level, ratings[..|ratings| - 1]), ratings[|ratings| - 1])
  }

  /** Levels that may still rise: admins in place, nobody above the reference. */
  ghost predicate Sound(level: Levels, ratings: seq<Rating>, admins: seq<Member>) {
    && level.Keys == Universe(ratings, admins)
    && (forall a :: a in admins ==> level[a] == 5)
    && (forall m :: m in level ==> 0 <= level[m] <= Level(ratings, admins, m))
  }

  lemma ConferSound(level: Levels, ratings: seq<Rating>, admins: seq<Member>, i: nat)
    requires Sound(level, ratings, admins) && i < |ratings| && Covers(level, ratings)
    ensures Sound(Confer(level, ratings[i]), ratings, admins)
  {
    var x := ratings[i];
    var c := Conferred(level[x.rater], x.value);
    if x.rater != x.ratee && c > 0 {
      LevelAtLeast(ratings, admins, x.rater, c + 1);
      assert Vouches(ratings, x.rater, x.ratee, c);
      LevelAtLeast(ratings, admins, x.ratee, c);
    }
  }

  lemma {:induction false} PassSound(level: Levels, ratings: seq<Rating>, admins: seq<Member>, n: nat)
    requires Sound(level, ratings, admins) && Covers(level, ratings) && n <= |ratings|
    ensures Sound(Pass(level, ratings[..n]), ratings, admins)
  {
    if n > 0 {
      PassSound(level, ratings, admins, n - 1);
      assert ratings[..n][..n - 1] == ratings[..n - 1];
      ConferSound(Pass(level, ratings[..n - 1]), ratings, admins, n - 1);
    }
  }

  // ----- how far a pass gets

  /** A pass confers at least what its ratings give on the levels it started from. */
  lemma {:induction false} PassConfers(level: Levels, ratings: seq<Rating>, n: nat, i: nat)
    requires Covers(level, ratings) && i < n <= |ratings| && ratings[i].rater != ratings[i].ratee
    ensures Pass(level, ratings[..n])[ratings[i].ratee] >= Conferred(level[ratings[i].rater], ratings[i].value)
  {
    assert ratings[..n][..n - 1] == ratings[..n - 1];
    if i < n - 1 { PassConfers(level, ratings, n - 1, i); }
  }

  /** The members of higher level: a rater who matters lies strictly deeper. */
  ghost function Higher(ratings: seq<Rating>, admins: seq<Member>, m: Member): set<Member> {
    set x | x in Universe(ratings, admins) && Level(ratings, admins, x) > Level(ratings, admins, m)
  }

  /** Everyone with at most `n` members above has reached the reference level. */
  ghost predicate Complete(level: Levels, ratings: seq<Rating>, admins: seq<Member>, n: nat)
    requires level.Keys == Universe(ratings, admins)
  {
    forall m :: m in level && |Higher(ratings, admins, m)| <= n ==> level[m] == Level(ratings, admins, m)
  }

  lemma SmallerSubset<T>(a: set<T>, b: set<T>)
    requires a < b
    ensures |a| < |b|
  {
    var x :| x in b && x !in a;
    assert b == a + {x} + (b - a - {x});
  }

  /** The rating behind a member's level, from a rater with strictly fewer members above. */
  lemma BestRating(ratings: seq<Rating>, admins: seq<Member>, m: Member) returns (i: nat)
    requires m !in admins && Level(ratings, admins, m) > 0
    ensures i < |ratings| && ratings[i].ratee == m && ratings[i].rater != m
    ensures ratings[i].value >= Level(ratings, admins, m)
    ensures Level(ratings, admins, ratings[i].rater) > Level(ratings, admins, m)
    ensures |Higher(ratings, admins, ratings[i].rater)| < |Higher(ratings, admins, m)|
  {
    var k := Level(ratings, admins, m);
    AdminLevel(ratings, admins, m);
    var r :| Vouches(ratings, r, m, k) && AtLeast(ratings, admins, r, k + 1);
    i :| 0 <= i < |ratings| && ratings[i].rater == r && ratings[i].ratee == m && ratings[i].value >= k;
    LevelAtLeast(ratings, admins, r, k + 1);
    assert r in Higher(ratings, admins, m) && r !in Higher(ratings, admins, r);
    SmallerSubset(Higher(ratings, admins, r), Higher(ratings, admins, m));
  }

  /** Each pass completes one more layer. */
  lemma PassCompletes(level: Levels, ratings: seq<Rating>, admins: seq<Member>, n: nat)
    requires Sound(level, ratings, admins) && Covers(level, ratings) && Complete(level, ratings, admins, n)
    ensures Sound(Pass(level, ratings), ratings, admins) && Complete(Pass(level, ratings), ratings, admins, n + 1)
  {
    var next := Pass(level, ratings);
    assert ratings[..|ratings|] == ratings;
    PassSound(level, ratings, admins, |ratings|);
    forall m | m in next && |Higher(ratings, admins, m)| <= n + 1 ensures next[m] == Level(ratings, admins, m) {
      AdminLevel(ratings, admins, m);
      if m !in admins && Level(ratings, admins, m) > 0 {
        var i := BestRating(ratings, admins, m);
        PassConfers(level, ratings, |ratings|, i);
      }
    }
  }

  /** Before any pass, whoever has nobody above is in place. */
  lemma StartComplete(level: Levels, ratings: seq<Rating>, admins: seq<Member>)
    requires Sound(level, ratings, admins)
    ensures Complete(level, ratings, admins, 0)
  {
    forall m | m in level && |Higher(ratings, admins, m)| <= 0 ensures level[m] == Level(ratings, admins, m) {
      AdminLevel(ratings, admins, m);
      if m !in admins && Level(ratings, admins, m) > 0 {
        var i := BestRating(ratings, admins, m);
        assert false;
      }
    }
  }

  /** With as many layers complete as there are members, all are. */
  lemma AllComplete(level: Levels, ratings: seq<Rating>, admins: seq<Member>, n: nat)
    requires Sound(level, ratings, admins) && Complete(level, ratings, admins, n) && n + 1 >= |level.Keys|
    ensures forall m :: m in level ==> level[m] == Level(ratings, admins, m)
  {
    forall m | m in level ensures level[m] == Level(ratings, admins, m) {
      assert m !in Higher(ratings, admins, m) && Higher(ratings, admins, m) <= level.Keys;
      SmallerSubset(Higher(ratings, admins, m), level.Keys);
    }
  }

  /** Levels a pass leaves alone are the reference levels. */
  lemma {:induction false} FixedIsComplete(level: Levels, ratings: seq<Rating>, admins: seq<Member>, n: nat)
    requires Sound(level, ratings, admins) && Covers(level, ratings) && Pass(level, ratings) == level
    ensures Complete(level, ratings, admins, n)
  {
    if n == 0 {
      StartComplete(level, ratings, admins);
    } else {
      FixedIsComplete(level, ratings, admins, n - 1);
      PassCompletes(level, ratings, admins, n - 1);
    }
  }

  // ----- trust_levels

  method TrustLevels(ratings: seq<Rating>, admins: seq<Member>) returns (level: Levels)
    ensures level.Keys == Universe(ratings, admins)
    ensures forall m :: m in level ==> level[m] == Level(ratings, admins, m)
    ensures Covers(level, ratings) && Pass(level, ratings) == level
  {
    var universe := Universe(ratings, admins);
    level := map m | m in universe :: if m in admins then 5 else 0;
    InitialSound(level, ratings, admins);
    StartComplete(level, ratings, admins);
    var passes := 0;
    while passes <= |universe|
      invariant 0 <= passes <= |universe| + 1
      invariant Sound(level, ratings, admins) && Covers(level, ratings) && Complete(level, ratings, admins, passes)
    {
      var next := OnePass(level, ratings);
      PassCompletes(level, ratings, admins, passes);
      if next == level { break; }
      level := next;
      passes := passes + 1;
    }
    if passes <= |universe| { FixedIsComplete(level, ratings, admins, |universe|); }
    AllComplete(level, ratings, admins, if passes <= |universe| then |universe| else passes);
    ReferenceFixed(level, ratings, admins);
  }

  method OnePass(level: Levels, ratings: seq<Rating>) returns (next: Levels)
    requires Covers(level, ratings)
    ensures next == Pass(level, ratings)
  {
    next := level;
    for i := 0 to |ratings|
      invariant next == Pass(level, ratings[..i])
    {
      assert ratings[..i + 1][..i] == ratings[..i];
      next := Confer(next, ratings[i]);
    }
    assert ratings[..|ratings|] == ratings;
  }

  lemma InitialSound(level: Levels, ratings: seq<Rating>, admins: seq<Member>)
    requires level == map m | m in Universe(ratings, admins) :: if m in admins then 5 else 0
    ensures Sound(level, ratings, admins) && Covers(level, ratings)
  {
    forall m | m in level ensures 0 <= level[m] <= Level(ratings, admins, m) { AdminLevel(ratings, admins, m); }
  }

  lemma ReferenceFixed(level: Levels, ratings: seq<Rating>, admins: seq<Member>)
    requires Sound(level, ratings, admins) && Covers(level, ratings)
    requires forall m :: m in level ==> level[m] == Level(ratings, admins, m)
    ensures Pass(level, ratings) == level
  {
    hide Pass, Level, Universe;
    assert ratings[..|ratings|] == ratings;
    PassSound(level, ratings, admins, |ratings|);
    var next := Pass(level, ratings);
    forall m | m in level ensures next[m] == level[m] {
      assert level[m] <= next[m] <= Level(ratings, admins, m);
    }
  }

  // ----- what the levels are

  /** Admins are 5; everyone else is at the best conferral among the ratings, or 0. */
  ghost predicate Solves(level: Levels, ratings: seq<Rating>, admins: seq<Member>) {
    && level.Keys == Universe(ratings, admins)
    && Covers(level, ratings)
    && (forall a :: a in admins ==> level[a] == 5)
    && (forall i :: 0 <= i < |ratings| && ratings[i].rater != ratings[i].ratee && ratings[i].ratee !in admins ==>
          level[ratings[i].ratee] >= Conferred(level[ratings[i].rater], ratings[i].value))
    && (forall m :: m in level && m !in admins ==> level[m] == 0 || Achieved(level, ratings, m))
  }

  ghost predicate Achieved(level: Levels, ratings: seq<Rating>, m: Member)
    requires Covers(level, ratings) && m in level
  {
    exists i :: 0 <= i < |ratings| && ratings[i].ratee == m && ratings[i].rater != m
             && level[m] == Conferred(level[ratings[i].rater], ratings[i].value)
  }

  lemma HighestMember(level: Levels) returns (top: Member)
    requires level != map[]
    ensures top in level && forall m :: m in level ==> level[m] <= level[top]
    decreases |level|
  {
    top :| top in level;
    var rest := level - {top};
    if rest != map[] {
      assert |rest| < |level| by { SmallerSubset(rest.Keys, level.Keys); }
      var other := HighestMember(rest);
      if level[other] > level[top] { top := other; }
      assert forall m :: m in level ==> m in rest || level[m] <= level[top];
    } else {
      assert forall m :: m in level && m != top ==> m in rest;
    }
  }

  /** In a solution nobody is above the admins, and only admins are at 5. */
  lemma SolutionBounded(level: Levels, ratings: seq<Rating>, admins: seq<Member>, m: Member)
    requires Solves(level, ratings, admins) && m in level
    ensures 0 <= level[m] <= 5 && (level[m] == 5 <==> m in admins)
  {
    var top := HighestMember(level);
    assert top in admins || level[top] <= 0;
    if m !in admins && level[m] != 0 {
      var i :| 0 <= i < |ratings| && ratings[i].ratee == m && ratings[i].rater != m
            && level[m] == Conferred(level[ratings[i].rater], ratings[i].value);
    }
  }

  /** The rating that achieves a member's level in a solution. */
  lemma AchievingRating(level: Levels, ratings: seq<Rating>, admins: seq<Member>, m: Member) returns (i: nat)
    requires Solves(level, ratings, admins) && m in level && m !in admins && level[m] > 0
    ensures i < |ratings| && ratings[i].ratee == m && ratings[i].rater != m && ratings[i].rater in level
    ensures level[ratings[i].rater] > level[m] && ratings[i].value >= level[m]
  {
    hide Universe;
    assert Achieved(level, ratings, m);
    i :| 0 <= i < |ratings| && ratings[i].ratee == m && ratings[i].rater != m
      && level[m] == Conferred(level[ratings[i].rater], ratings[i].value);
  }

  lemma {:induction false} SolutionAtLeast(level: Levels, ratings: seq<Rating>, admins: seq<Member>, m: Member, k: nat)
    requires Solves(level, ratings, admins) && m in level && 1 <= k <= 5
    ensures level[m] >= k <==> AtLeast(ratings, admins, m, k)
    decreases 5 - k
  {
    hide Universe, Achieved;
    SolutionBounded(level, ratings, admins, m);
    if m !in admins && k < 5 {
      if level[m] >= k {
        var i := AchievingRating(level, ratings, admins, m);
        SolutionAtLeast(level, ratings, admins, ratings[i].rater, k + 1);
        assert Vouches(ratings, ratings[i].rater, m, k);
      } else if AtLeast(ratings, admins, m, k) {
        var r :| Vouches(ratings, r, m, k) && AtLeast(ratings, admins, r, k + 1);
        var i :| 0 <= i < |ratings| && ratings[i].rater == r && ratings[i].ratee == m && ratings[i].value >= k;
        SolutionAtLeast(level, ratings, admins, r, k + 1);
        assert false;
      }
    }
  }

  /** There is one solution, and it is the reference. */
  lemma SolutionUnique(level: Levels, ratings: seq<Rating>, admins: seq<Member>)
    requires Solves(level, ratings, admins)
    ensures forall m :: m in level ==> level[m] == Level(ratings, admins, m)
  {
    forall m | m in level ensures level[m] == Level(ratings, admins, m) {
      SolutionBounded(level, ratings, admins, m);
      var l := Level(ratings, admins, m);
      if level[m] > 0 {
        SolutionAtLeast(level, ratings, admins, m, level[m]);
        LevelAtLeast(ratings, admins, m, level[m]);
      }
      if l > 0 { SolutionAtLeast(level, ratings, admins, m, l); }
    }
  }

  /** The reference is a solution. */
  lemma ConferralReached(ratings: seq<Rating>, admins: seq<Member>, x: Rating)
    requires x in ratings && x.rater != x.ratee
    ensures Level(ratings, admins, x.ratee) >= Conferred(Level(ratings, admins, x.rater), x.value)
  {
    var c := Conferred(Level(ratings, admins, x.rater), x.value);
    if c > 0 {
      LevelAtLeast(ratings, admins, x.rater, c + 1);
      assert Vouches(ratings, x.rater, x.ratee, c);
      LevelAtLeast(ratings, admins, x.ratee, c);
    }
  }

  lemma ReferenceSolves(level: Levels, ratings: seq<Rating>, admins: seq<Member>)
    requires level.Keys == Universe(ratings, admins)
    requires forall m :: m in level ==> level[m] == Level(ratings, admins, m)
    ensures Solves(level, ratings, admins)
  {
    assert Covers(level, ratings);
    hide Level, Conferred, Achieved, Covers, Universe;
    forall a | a in admins ensures a in level && level[a] == 5 {
      AdminLevel(ratings, admins, a);
      InUniverse(ratings, admins, a);
    }
    forall i | 0 <= i < |ratings| && ratings[i].rater != ratings[i].ratee
      ensures ratings[i].rater in level && ratings[i].ratee in level
           && level[ratings[i].ratee] >= Conferred(level[ratings[i].rater], ratings[i].value)
    {
      RatedInUniverse(ratings, admins, i);
      ConferralReached(ratings, admins, ratings[i]);
    }
    forall m | m in level && m !in admins ensures level[m] == 0 || Achieved(level, ratings, m) {
      if level[m] != 0 { BestAchieved(level, ratings, admins, m); }
    }
  }

  lemma InUniverse(ratings: seq<Rating>, admins: seq<Member>, a: Member)
    requires a in admins
    ensures a in Universe(ratings, admins)
  {
  }

  lemma RatedInUniverse(ratings: seq<Rating>, admins: seq<Member>, i: nat)
    requires i < |ratings|
    ensures ratings[i].rater in Universe(ratings, admins) && ratings[i].ratee in Universe(ratings, admins)
  {
  }

  lemma BestAchieved(level: Levels, ratings: seq<Rating>, admins: seq<Member>, m: Member)
    requires Covers(level, ratings) && forall m :: m in level ==> level[m] == Level(ratings, admins, m)
    requires m in level && m !in admins && level[m] > 0
    ensures Achieved(level, ratings, m)
  {
    hide Level;
    var i := BestRating(ratings, admins, m);
    ConferralReached(ratings, admins, ratings[i]);
    assert level[m] == Conferred(level[ratings[i].rater], ratings[i].value);
  }

  /** A path of raters, each strictly above the one before, up to an admin. */
  ghost predicate RisingChain(ratings: seq<Rating>, admins: seq<Member>, chain: seq<Member>) {
    && |chain| > 0
    && chain[|chain| - 1] in admins
    && (forall i :: 0 <= i < |chain| - 1 ==>
          && Vouches(ratings, chain[i + 1], chain[i], Level(ratings, admins, chain[i]))
          && Level(ratings, admins, chain[i]) < Level(ratings, admins, chain[i + 1]))
  }

  /** Every positive level is backed by a rising chain of raters that ends at an admin. */
  lemma {:induction false} PositiveLevelBacked(ratings: seq<Rating>, admins: seq<Member>, m: Member)
    returns (chain: seq<Member>)
    requires Level(ratings, admins, m) > 0
    ensures RisingChain(ratings, admins, chain) && chain[0] == m
    decreases 5 - Level(ratings, admins, m)
  {
    if m in admins {
      chain := [m];
    } else {
      var i := BestRating(ratings, admins, m);
      var rest := PositiveLevelBacked(ratings, admins, ratings[i].rater);
      chain := [m] + rest;
      assert Vouches(ratings, rest[0], m, Level(ratings, admins, m));
    }
  }

  lemma {:induction false} SameAtLeast(
    ratings: seq<Rating>, ratings': seq<Rating>, admins: seq<Member>, admins': seq<Member>, m: Member, k: nat)
    requires (forall x :: x in ratings <==> x in ratings') && (forall a :: a in admins <==> a in admins')
    requires 1 <= k <= 5 && AtLeast(ratings, admins, m, k)
    ensures AtLeast(ratings', admins', m, k)
    decreases 5 - k
  {
    if m !in admins {
      var r :| Vouches(ratings, r, m, k) && AtLeast(ratings, admins, r, k + 1);
      var i :| 0 <= i < |ratings| && ratings[i].rater == r && ratings[i].ratee == m && ratings[i].value >= k;
      assert ratings[i] in ratings';
      assert Vouches(ratings', r, m, k);
      SameAtLeast(ratings, ratings', admins, admins', r, k + 1);
    }
  }

  /** Levels depend on which ratings and admins there are, not on their order or repetition. */
  lemma OrderDoesNotMatter(
    ratings: seq<Rating>, ratings': seq<Rating>, admins: seq<Member>, admins': seq<Member>, m: Member)
    requires (forall x :: x in ratings <==> x in ratings') && (forall a :: a in admins <==> a in admins')
    ensures Level(ratings, admins, m) == Level(ratings', admins', m)
  {
    var l, l' := Level(ratings, admins, m), Level(ratings', admins', m);
    if l > 0 { SameAtLeast(ratings, ratings', admins, admins', m, l); LevelAtLeast(ratings', admins', m, l); }
    if l' > 0 { SameAtLeast(ratings', ratings, admins', admins, m, l'); LevelAtLeast(ratings, admins, m, l'); }
  }
}
