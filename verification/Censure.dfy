/** Discrediting members (`qucalc/src/lib.rs`, `gov::censure`). Rounds of discredit and
    slashing stop because nobody else meets the quorum, and the final levels have a closed form. */
module Censure {
  import opened Sums
  import opened Trust

  /** `censor` censures `target`. */
  datatype Mark = Mark(censor: Member, target: Member)

  /** `voucher` staked `stake` levels on `vouchee`. */
  datatype Stake = Stake(voucher: Member, vouchee: Member, stake: int)

  function LevelOf(level: Levels, m: Member): int {
    if m in level then level[m] else 0
  }

  function Involved(marks: seq<Mark>, levels: Levels, stakes: seq<Stake>): set<Member> {
    levels.Keys + (set x | x in marks :: x.censor) + (set x | x in marks :: x.target)
    + (set x | x in stakes :: x.voucher) + (set x | x in stakes :: x.vouchee)
  }

  /** The other members at or above the level of `m`. */
  function Eligible(universe: set<Member>, level: Levels, m: Member): set<Member> {
    set x | x in universe && x != m && LevelOf(level, x) >= LevelOf(level, m)
  }

  /** Two thirds of the eligible members, rounded up, and at least two. */
  function Quorum(eligible: nat): int {
    Max((2 * eligible + 2) / 3, 2)
  }

  /** How many entries of the list censure `m` from its level or above. */
  function MarksAgainst(marks: seq<Mark>, level: Levels, m: Member): int {
    SumOf((x: Mark) => if x.target == m && LevelOf(level, x.censor) >= LevelOf(level, m) then 1 else 0, marks)
  }

  predicate MeetsQuorum(universe: set<Member>, marks: seq<Mark>, level: Levels, m: Member) {
    MarksAgainst(marks, level, m) >= Quorum(|Eligible(universe, level, m)|)
  }

  predicate NonNegative(levels: Levels, stakes: seq<Stake>) {
    && (forall m :: m in levels ==> levels[m] >= 0)
    && (forall i :: 0 <= i < |stakes| ==> stakes[i].stake >= 0)
  }

  // ----- the reference

  /** What `m` staked on discredited members, all told. */
  function Lost(stakes: seq<Stake>, discredited: set<Member>, m: Member): int {
    SumOf((x: Stake) => if x.voucher == m && x.vouchee in discredited then x.stake else 0, stakes)
  }

  /** 0 once discredited, else the initial level less all stakes on discredited members, floored at 0. */
  function Slashed(levels: Levels, stakes: seq<Stake>, discredited: set<Member>, m: Member): int {
    if m in discredited then 0 else Max(0, LevelOf(levels, m) - Lost(stakes, discredited, m))
  }

  /** `level` is the closed form at every member. */
  ghost predicate IsSlashed(level: Levels, levels: Levels, stakes: seq<Stake>, discredited: set<Member>) {
    forall m :: LevelOf(level, m) == Slashed(levels, stakes, discredited, m)
  }

  // ----- slashing the vouchers of one member

  /** What `m` staked on `target` among the first entries. */
  function StakedOn(stakes: seq<Stake>, target: Member, m: Member): int {
    SumOf((x: Stake) => if x.voucher == m && x.vouchee == target then x.stake else 0, stakes)
  }

  lemma LostOneMore(stakes: seq<Stake>, discredited: set<Member>, target: Member, m: Member)
    requires target !in discredited
    ensures Lost(stakes, discredited + {target}, m) == Lost(stakes, discredited, m) + StakedOn(stakes, target, m)
  {
    SumAdd((x: Stake) => if x.voucher == m && x.vouchee in discredited then x.stake else 0,
           (x: Stake) => if x.voucher == m && x.vouchee == target then x.stake else 0,
           (x: Stake) => if x.voucher == m && x.vouchee in discredited + {target} then x.stake else 0, stakes);
  }

  lemma StakedOnStep(stakes: seq<Stake>, i: nat, target: Member, m: Member)
    requires i < |stakes|
    ensures StakedOn(stakes[..i + 1], target, m)
         == StakedOn(stakes[..i], target, m)
            + (if stakes[i].voucher == m && stakes[i].vouchee == target then stakes[i].stake else 0)
  {
    assert stakes[..i + 1][..i] == stakes[..i];
  }

  /** The closed form after `target` fell and the first entries on it were slashed. */
  ghost predicate PartlySlashed(
    level: Levels, levels: Levels, stakes: seq<Stake>, discredited: set<Member>, target: Member, i: nat)
    requires i <= |stakes|
  {
    forall m :: LevelOf(level, m)
             == if m in discredited || m == target then 0
                else Max(0, LevelOf(levels, m) - Lost(stakes, discredited, m) - StakedOn(stakes[..i], target, m))
  }

  lemma SlashStep(
    level: Levels, levels: Levels, stakes: seq<Stake>, discredited: set<Member>, target: Member, i: nat)
    requires i < |stakes| && NonNegative(levels, stakes)
    requires PartlySlashed(level, levels, stakes, discredited, target, i)
    ensures stakes[i].vouchee == target ==>
              PartlySlashed(level[stakes[i].voucher := Max(LevelOf(level, stakes[i].voucher) - stakes[i].stake, 0)],
                            levels, stakes, discredited, target, i + 1)
    ensures stakes[i].vouchee != target ==> PartlySlashed(level, levels, stakes, discredited, target, i + 1)
  {
    hide Lost, StakedOn;
    var x := stakes[i];
    var after := if x.vouchee == target then level[x.voucher := Max(LevelOf(level, x.voucher) - x.stake, 0)] else level;
    forall m
      ensures LevelOf(after, m)
           == if m in discredited || m == target then 0
              else Max(0, LevelOf(levels, m) - Lost(stakes, discredited, m) - StakedOn(stakes[..i + 1], target, m))
    {
      StakedOnStep(stakes, i, target, m);
    }
  }

  /** Discredit `target` and slash whoever vouched for it. */
  method Discredit(level: Levels, target: Member, stakes: seq<Stake>, ghost levels: Levels, ghost discredited: set<Member>)
    returns (after: Levels)
    ensures NonNegative(levels, stakes) && target !in discredited && IsSlashed(level, levels, stakes, discredited) ==>
              IsSlashed(after, levels, stakes, discredited + {target})
  {
    hide Lost, StakedOn, PartlySlashed;
    after := level[target := 0];
    ghost var good := NonNegative(levels, stakes) && target !in discredited
                   && IsSlashed(level, levels, stakes, discredited);
    if good { SlashStart(level, levels, stakes, discredited, target); }
    for i := 0 to |stakes|
      invariant good ==> PartlySlashed(after, levels, stakes, discredited, target, i)
    {
      if good { SlashStep(after, levels, stakes, discredited, target, i); }
      if stakes[i].vouchee == target {
        var voucher := stakes[i].voucher;
        after := after[voucher := Max(LevelOf(after, voucher) - stakes[i].stake, 0)];
      }
    }
    if good { SlashEnd(after, levels, stakes, discredited, target); }
  }

  lemma SlashStart(level: Levels, levels: Levels, stakes: seq<Stake>, discredited: set<Member>, target: Member)
    requires IsSlashed(level, levels, stakes, discredited)
    ensures PartlySlashed(level[target := 0], levels, stakes, discredited, target, 0)
  {
    hide Lost;
    forall m ensures LevelOf(level[target := 0], m)
                  == if m in discredited || m == target then 0
                     else Max(0, LevelOf(levels, m) - Lost(stakes, discredited, m) - StakedOn(stakes[..0], target, m))
    {
      assert stakes[..0] == [] && LevelOf(level, m) == Slashed(levels, stakes, discredited, m);
    }
  }

  lemma SlashEnd(level: Levels, levels: Levels, stakes: seq<Stake>, discredited: set<Member>, target: Member)
    requires target !in discredited && PartlySlashed(level, levels, stakes, discredited, target, |stakes|)
    ensures IsSlashed(level, levels, stakes, discredited + {target})
  {
    hide Lost, StakedOn;
    assert stakes[..|stakes|] == stakes;
    forall m ensures LevelOf(level, m) == Slashed(levels, stakes, discredited + {target}, m) {
      LostOneMore(stakes, discredited, target, m);
    }
  }

  // ----- the rounds

  /** The quorum test reads the levels only through `LevelOf`. */
  lemma SameLevelsSameQuorum(universe: set<Member>, marks: seq<Mark>, a: Levels, b: Levels, m: Member)
    requires forall x :: LevelOf(a, x) == LevelOf(b, x)
    ensures MeetsQuorum(universe, marks, a, m) == MeetsQuorum(universe, marks, b, m)
  {
    assert Eligible(universe, a, m) == Eligible(universe, b, m);
    SumSame((x: Mark) => if x.target == m && LevelOf(a, x.censor) >= LevelOf(a, m) then 1 else 0,
            (x: Mark) => if x.target == m && LevelOf(b, x.censor) >= LevelOf(b, m) then 1 else 0, marks);
  }

  function ClosedForm(marks: seq<Mark>, levels: Levels, stakes: seq<Stake>, discredited: set<Member>): Levels {
    map m | m in Involved(marks, levels, stakes) :: Slashed(levels, stakes, discredited, m)
  }

  lemma ClosedFormSlashed(marks: seq<Mark>, levels: Levels, stakes: seq<Stake>, discredited: set<Member>)
    ensures IsSlashed(ClosedForm(marks, levels, stakes, discredited), levels, stakes, discredited)
  {
    forall m | m !in Involved(marks, levels, stakes) ensures Lost(stakes, discredited, m) == 0 {
      NothingLost(stakes, discredited, m);
    }
  }

  lemma NothingLost(stakes: seq<Stake>, discredited: set<Member>, m: Member)
    requires forall x :: x in stakes ==> x.voucher != m || x.vouchee !in discredited
    ensures Lost(stakes, discredited, m) == 0
  {
    SumZero((x: Stake) => if x.voucher == m && x.vouchee in discredited then x.stake else 0, stakes);
  }

  /** Who falls in the round after `discredited`. */
  function Falls(marks: seq<Mark>, levels: Levels, stakes: seq<Stake>, discredited: set<Member>): set<Member> {
    Falling(Involved(marks, levels, stakes), marks, ClosedForm(marks, levels, stakes, discredited), discredited)
  }

  /** Everyone discredited within `n` rounds. */
  function Rounds(marks: seq<Mark>, levels: Levels, stakes: seq<Stake>, n: nat): set<Member> {
    if n == 0 then {}
    else
      var before := Rounds(marks, levels, stakes, n - 1);
      before + Falls(marks, levels, stakes, before)
  }

  lemma {:induction false} RoundsSettled(marks: seq<Mark>, levels: Levels, stakes: seq<Stake>, k: nat, n: nat)
    requires k <= n && Falls(marks, levels, stakes, Rounds(marks, levels, stakes, k)) == {}
    ensures Rounds(marks, levels, stakes, n) == Rounds(marks, levels, stakes, k)
  {
    hide Falls;
    if k < n { RoundsSettled(marks, levels, stakes, k, n - 1); }
  }

  function Falling(universe: set<Member>, marks: seq<Mark>, level: Levels, discredited: set<Member>): set<Member> {
    set m | m in universe && m !in discredited && MeetsQuorum(universe, marks, level, m)
  }

  /** Collect the members who meet the quorum at the current levels. */
  method FindFalling(universe: set<Member>, marks: seq<Mark>, level: Levels, discredited: set<Member>)
    returns (newly: set<Member>)
    ensures newly == Falling(universe, marks, level, discredited)
  {
    newly := {};
    var todo := universe;
    while todo != {}
      invariant todo <= universe
      invariant newly == set m | m in universe - todo && m !in discredited && MeetsQuorum(universe, marks, level, m)
      decreases todo
    {
      var m :| m in todo;
      if m !in discredited && MeetsQuorum(universe, marks, level, m) { newly := newly + {m}; }
      todo := todo - {m};
    }
  }

  /** Discredit a whole round, in any order. */
  method DiscreditAll(level: Levels, newly: set<Member>, stakes: seq<Stake>, ghost levels: Levels,
                      ghost discredited: set<Member>)
    returns (after: Levels)
    requires newly !! discredited
    ensures NonNegative(levels, stakes) && IsSlashed(level, levels, stakes, discredited) ==>
              IsSlashed(after, levels, stakes, discredited + newly)
  {
    hide IsSlashed;
    after := level;
    var todo := newly;
    assert discredited + (newly - todo) == discredited;
    while todo != {}
      invariant todo <= newly
      invariant NonNegative(levels, stakes) && IsSlashed(level, levels, stakes, discredited) ==>
                  IsSlashed(after, levels, stakes, discredited + (newly - todo))
      decreases todo
    {
      var m :| m in todo;
      after := Discredit(after, m, stakes, levels, discredited + (newly - todo));
      assert discredited + (newly - (todo - {m})) == discredited + (newly - todo) + {m};
      todo := todo - {m};
    }
    assert discredited + (newly - {}) == discredited + newly;
  }

  method Censure(marks: seq<Mark>, levels: Levels, stakes: seq<Stake>)
    returns (discredited: set<Member>, level: Levels)
    ensures discredited <= Involved(marks, levels, stakes)
    ensures Falling(Involved(marks, levels, stakes), marks, level, discredited) == {}
    ensures NonNegative(levels, stakes) ==> IsSlashed(level, levels, stakes, discredited)
    ensures NonNegative(levels, stakes) ==>
              discredited == Rounds(marks, levels, stakes, |Involved(marks, levels, stakes)|)
  {
    hide IsSlashed, NonNegative, Involved, Rounds, Falls, MeetsQuorum;
    var universe := Involved(marks, levels, stakes);
    level, discredited := levels, {};
    NoneSlashed(levels, stakes);
    RoundsNext(marks, levels, stakes, 0);
    var rounds, settled := 0, false;
    while rounds <= |universe| && !settled
      invariant 0 <= rounds <= |discredited| && discredited <= universe
      invariant Tracked(marks, levels, stakes, level, discredited, rounds)
      invariant settled ==> Falling(universe, marks, level, discredited) == {}
      decreases |universe| + 1 - rounds, !settled
    {
      var newly := FindFalling(universe, marks, level, discredited);
      FallingIsReference(marks, levels, stakes, level, discredited);
      RoundsNext(marks, levels, stakes, rounds);
      if newly == {} {
        settled := true;
      } else {
        level := DiscreditAll(level, newly, stakes, levels, discredited);
        SmallerSubset(discredited, discredited + newly);
        discredited := discredited + newly;
        rounds := rounds + 1;
      }
    }
    SubsetSize(discredited, universe);
    assert settled;
    FallingIsReference(marks, levels, stakes, level, discredited);
    if NonNegative(levels, stakes) { RoundsSettled(marks, levels, stakes, rounds, |universe|); }
  }

  /** Without negative levels or stakes, the state after `n` rounds is the reference one. */
  ghost predicate Tracked(
    marks: seq<Mark>, levels: Levels, stakes: seq<Stake>, level: Levels, discredited: set<Member>, n: nat)
  {
    NonNegative(levels, stakes) ==>
      IsSlashed(level, levels, stakes, discredited) && discredited == Rounds(marks, levels, stakes, n)
  }

  lemma RoundsNext(marks: seq<Mark>, levels: Levels, stakes: seq<Stake>, n: nat)
    ensures Rounds(marks, levels, stakes, 0) == {}
    ensures Rounds(marks, levels, stakes, n + 1)
         == Rounds(marks, levels, stakes, n) + Falls(marks, levels, stakes, Rounds(marks, levels, stakes, n))
  {
  }

  lemma NoneSlashed(levels: Levels, stakes: seq<Stake>)
    ensures NonNegative(levels, stakes) ==> IsSlashed(levels, levels, stakes, {})
  {
    forall m ensures Lost(stakes, {}, m) == 0 { NothingLost(stakes, {}, m); }
  }

  lemma FallingIsReference(
    marks: seq<Mark>, levels: Levels, stakes: seq<Stake>, level: Levels, discredited: set<Member>)
    ensures IsSlashed(level, levels, stakes, discredited) ==>
              Falling(Involved(marks, levels, stakes), marks, level, discredited) == Falls(marks, levels, stakes, discredited)
  {
    hide MeetsQuorum, Slashed;
    if IsSlashed(level, levels, stakes, discredited) {
      var form := ClosedForm(marks, levels, stakes, discredited);
      ClosedFormSlashed(marks, levels, stakes, discredited);
      assert forall x :: LevelOf(level, x) == LevelOf(form, x);
      forall m ensures MeetsQuorum(Involved(marks, levels, stakes), marks, level, m)
                    == MeetsQuorum(Involved(marks, levels, stakes), marks, form, m)
      {
        SameLevelsSameQuorum(Involved(marks, levels, stakes), marks, level, form, m);
      }
    }
  }

  lemma SubsetSize<T>(a: set<T>, b: set<T>)
    requires a <= b
    ensures |a| <= |b|
  {
    if a != b { SmallerSubset(a, b); }
  }

  // ----- order of the lists

  lemma SameElements<T>(xs: seq<T>, ys: seq<T>, x: T)
    requires multiset(xs) == multiset(ys)
    ensures x in xs <==> x in ys
  {
    assert x in xs <==> x in multiset(xs);
    assert x in ys <==> x in multiset(ys);
  }

  lemma SameInvolved(marks: seq<Mark>, marks': seq<Mark>, levels: Levels, stakes: seq<Stake>, stakes': seq<Stake>)
    requires multiset(marks) == multiset(marks') && multiset(stakes) == multiset(stakes')
    ensures Involved(marks, levels, stakes) == Involved(marks', levels, stakes')
  {
    forall x ensures x in marks <==> x in marks' { SameElements(marks, marks', x); }
    forall x ensures x in stakes <==> x in stakes' { SameElements(stakes, stakes', x); }
  }

  lemma SameFalls(
    marks: seq<Mark>, marks': seq<Mark>, levels: Levels, stakes: seq<Stake>, stakes': seq<Stake>, discredited: set<Member>)
    requires multiset(marks) == multiset(marks') && multiset(stakes) == multiset(stakes')
    ensures ClosedForm(marks, levels, stakes, discredited) == ClosedForm(marks', levels, stakes', discredited)
    ensures Falls(marks, levels, stakes, discredited) == Falls(marks', levels, stakes', discredited)
    ensures forall m :: Slashed(levels, stakes, discredited, m) == Slashed(levels, stakes', discredited, m)
  {
    SameInvolved(marks, marks', levels, stakes, stakes');
    hide Involved;
    forall m ensures Slashed(levels, stakes, discredited, m) == Slashed(levels, stakes', discredited, m) {
      SumPermutation((x: Stake) => if x.voucher == m && x.vouchee in discredited then x.stake else 0, stakes, stakes');
    }
    var level := ClosedForm(marks, levels, stakes, discredited);
    forall m ensures MarksAgainst(marks, level, m) == MarksAgainst(marks', level, m) {
      SumPermutation((x: Mark) => if x.target == m && LevelOf(level, x.censor) >= LevelOf(level, m) then 1 else 0,
                     marks, marks');
    }
  }

  /** Who falls, and every final level, does not depend on the order of the lists, although slashing clamps
      step by step. */
  lemma {:induction false} ListOrderDoesNotMatter(
    marks: seq<Mark>, marks': seq<Mark>, levels: Levels, stakes: seq<Stake>, stakes': seq<Stake>, n: nat)
    requires multiset(marks) == multiset(marks') && multiset(stakes) == multiset(stakes')
    ensures Rounds(marks, levels, stakes, n) == Rounds(marks', levels, stakes', n)
    ensures forall m :: Slashed(levels, stakes, Rounds(marks, levels, stakes, n), m)
                     == Slashed(levels, stakes', Rounds(marks', levels, stakes', n), m)
  {
    hide Falls, ClosedForm, Slashed;
    if n > 0 {
      ListOrderDoesNotMatter(marks, marks', levels, stakes, stakes', n - 1);
      SameFalls(marks, marks', levels, stakes, stakes', Rounds(marks, levels, stakes, n - 1));
    }
    SameFalls(marks, marks', levels, stakes, stakes', Rounds(marks, levels, stakes, n));
  }

  // ----- entries and members

  predicate Counts(level: Levels, m: Member, x: Mark) {
    x.target == m && LevelOf(level, x.censor) >= LevelOf(level, m)
  }

  /** The members whose marks count against `m`. */
  function Censors(marks: seq<Mark>, level: Levels, m: Member): set<Member> {
    set x | x in marks && Counts(level, m, x) :: x.censor
  }

  predicate Repeated(marks: seq<Mark>, level: Levels, m: Member) {
    exists i, j :: 0 <= i < j < |marks| && marks[i] == marks[j] && Counts(level, m, marks[i])
  }

  /** The count is of list entries: it is the number of censuring members exactly when none is listed twice. */
  lemma {:induction false} EntriesAndMembers(marks: seq<Mark>, level: Levels, m: Member)
    ensures |Censors(marks, level, m)| <= MarksAgainst(marks, level, m)
    ensures |Censors(marks, level, m)| == MarksAgainst(marks, level, m) <==> !Repeated(marks, level, m)
  {
    if marks != [] {
      var init, last := marks[..|marks| - 1], marks[|marks| - 1];
      EntriesAndMembers(init, level, m);
      var before, after := Censors(init, level, m), Censors(marks, level, m);
      assert marks == init + [last];
      assert after == before + (if Counts(level, m, last) then {last.censor} else {});
      MarksStep(init, last, level, m);
      RepeatedStep(init, last, level, m);
    }
  }

  lemma MarksStep(init: seq<Mark>, last: Mark, level: Levels, m: Member)
    ensures MarksAgainst([], level, m) == 0
    ensures MarksAgainst(init + [last], level, m)
         == MarksAgainst(init, level, m) + (if Counts(level, m, last) then 1 else 0)
  {
    assert (init + [last])[..|init|] == init;
  }

  lemma RepeatedStep(init: seq<Mark>, last: Mark, level: Levels, m: Member)
    ensures Repeated(init + [last], level, m) <==>
              Repeated(init, level, m) || (Counts(level, m, last) && last.censor in Censors(init, level, m))
  {
    var all := init + [last];
    if Repeated(init, level, m) {
      var i, j :| 0 <= i < j < |init| && init[i] == init[j] && Counts(level, m, init[i]);
      assert all[i] == all[j];
    }
    if Counts(level, m, last) && last.censor in Censors(init, level, m) {
      var x :| x in init && Counts(level, m, x) && x.censor == last.censor;
      var i :| 0 <= i < |init| && init[i] == x;
      assert all[i] == last == all[|init|];
    }
  }

  /** The eligible members who censure `m`: what the quorum is documented to count. */
  function Accusers(marks: seq<Mark>, level: Levels, m: Member): set<Member> {
    Censors(marks, level, m) - {m}
  }

  lemma AccusersEligible(universe: set<Member>, marks: seq<Mark>, level: Levels, m: Member)
    requires forall x :: x in marks ==> x.censor in universe
    ensures Accusers(marks, level, m) <= Eligible(universe, level, m)
  {
  }

  /** The count is of eligible members exactly when no mark is listed twice and `m` does not censure itself. */
  lemma EntriesAndAccusers(marks: seq<Mark>, level: Levels, m: Member)
    ensures |Accusers(marks, level, m)| <= MarksAgainst(marks, level, m)
    ensures |Accusers(marks, level, m)| == MarksAgainst(marks, level, m) <==>
              !Repeated(marks, level, m) && Mark(m, m) !in marks
  {
    EntriesAndMembers(marks, level, m);
    var all := Censors(marks, level, m);
    if Mark(m, m) in marks {
      assert Counts(level, m, Mark(m, m)) && m in all;
    } else {
      assert m !in all;
      assert all - {m} == all;
    }
  }

  /** No mark is listed twice and nobody censures itself. */
  ghost predicate Clean(marks: seq<Mark>) {
    && (forall i, j :: 0 <= i < j < |marks| ==> marks[i] != marks[j])
    && (forall i :: 0 <= i < |marks| ==> marks[i].censor != marks[i].target)
  }

  /** The lists on which the code counts members, whatever the levels, are the clean ones. */
  lemma CleanIff(marks: seq<Mark>)
    ensures Clean(marks) <==>
              forall level: Levels, m :: |Accusers(marks, level, m)| == MarksAgainst(marks, level, m)
  {
    if Clean(marks) {
      forall level: Levels, m ensures |Accusers(marks, level, m)| == MarksAgainst(marks, level, m) {
        EntriesAndAccusers(marks, level, m);
      }
    } else {
      var k :| 0 <= k < |marks| && (marks[k].censor == marks[k].target || exists j :: k < j < |marks| && marks[j] == marks[k]);
      var m := marks[k].target;
      EntriesAndAccusers(marks, map[], m);
      assert Counts(map[], m, marks[k]);
    }
  }

  /** The documented rounds: a member falls when enough eligible members censure it. */
  function FairFalls(marks: seq<Mark>, levels: Levels, stakes: seq<Stake>, discredited: set<Member>): set<Member> {
    var universe, level := Involved(marks, levels, stakes), ClosedForm(marks, levels, stakes, discredited);
    set m | m in universe && m !in discredited
          && |Accusers(marks, level, m)| >= Quorum(|Eligible(universe, level, m)|)
  }

  function FairRounds(marks: seq<Mark>, levels: Levels, stakes: seq<Stake>, n: nat): set<Member> {
    if n == 0 then {}
    else
      var before := FairRounds(marks, levels, stakes, n - 1);
      before + FairFalls(marks, levels, stakes, before)
  }

  /** On clean lists the code discredits exactly the members its documentation says. */
  lemma {:induction false} CleanListsAreFair(marks: seq<Mark>, levels: Levels, stakes: seq<Stake>, n: nat)
    requires Clean(marks)
    ensures Rounds(marks, levels, stakes, n) == FairRounds(marks, levels, stakes, n)
  {
    hide Involved, ClosedForm, Accusers, MarksAgainst, Eligible, Clean;
    CleanIff(marks);
    if n > 0 { CleanListsAreFair(marks, levels, stakes, n - 1); }
  }

  /** A quorum is two members, and two thirds of the eligible ones. */
  lemma QuorumMeans(eligible: nat, n: int)
    ensures n >= Quorum(eligible) <==> n >= 2 && 3 * n >= 2 * eligible
  {
  }

  /** The other members who are at or above the level of `m` once `discredited` have fallen. */
  ghost function Peers(marks: seq<Mark>, levels: Levels, stakes: seq<Stake>, discredited: set<Member>, m: Member): set<Member> {
    set x | x in Involved(marks, levels, stakes) && x != m
         && Slashed(levels, stakes, discredited, x) >= Slashed(levels, stakes, discredited, m)
  }

  /** On clean lists a member falls in a round exactly when at least two of its peers, and at least two thirds of
      them, censure it at the levels of that round. */
  lemma FallsIff(marks: seq<Mark>, levels: Levels, stakes: seq<Stake>, n: nat, m: Member)
    requires Clean(marks)
    ensures var fallen := Rounds(marks, levels, stakes, n);
            var peers := Peers(marks, levels, stakes, fallen, m);
            var censors := set x | x in peers && Mark(x, m) in marks;
            m in Rounds(marks, levels, stakes, n + 1) <==>
              m in fallen
              || (m in Involved(marks, levels, stakes) && |censors| >= 2 && 3 * |censors| >= 2 * |peers|)
  {
    hide Involved, Clean, MarksAgainst, Slashed, Quorum, Peers;
    var fallen := Rounds(marks, levels, stakes, n);
    RoundsNext(marks, levels, stakes, n);
    if m in Involved(marks, levels, stakes) { PeersCensure(marks, levels, stakes, fallen, m); }
  }

  lemma PeersCensure(marks: seq<Mark>, levels: Levels, stakes: seq<Stake>, fallen: set<Member>, m: Member)
    requires Clean(marks) && m in Involved(marks, levels, stakes)
    ensures var peers := Peers(marks, levels, stakes, fallen, m);
            var censors := set x | x in peers && Mark(x, m) in marks;
            m in Falls(marks, levels, stakes, fallen) <==> m !in fallen && |censors| >= 2 && 3 * |censors| >= 2 * |peers|
  {
    var universe, level := Involved(marks, levels, stakes), ClosedForm(marks, levels, stakes, fallen);
    var peers := Peers(marks, levels, stakes, fallen, m);
    var censors := set x | x in peers && Mark(x, m) in marks;
    AccusersAre(universe, marks, level, m, Eligible(universe, level, m));
    hide Involved, Clean, MarksAgainst, Slashed, Quorum;
    assert forall x :: x in universe ==> LevelOf(level, x) == Slashed(levels, stakes, fallen, x);
    assert Eligible(universe, level, m) == peers;
    EntriesAndAccusersClean(marks, level, m);
    QuorumMeans(|peers|, |censors|);
  }

  lemma EntriesAndAccusersClean(marks: seq<Mark>, level: Levels, m: Member)
    requires Clean(marks)
    ensures |Accusers(marks, level, m)| == MarksAgainst(marks, level, m)
  {
    hide Clean, Accusers, MarksAgainst;
    CleanIff(marks);
  }

  lemma AccusersAre(universe: set<Member>, marks: seq<Mark>, level: Levels, m: Member, peers: set<Member>)
    requires forall x :: x in marks ==> x.censor in universe
    requires peers == Eligible(universe, level, m)
    ensures Accusers(marks, level, m) == set x | x in peers && Mark(x, m) in marks
  {
    forall x ensures x in Accusers(marks, level, m) <==> x in peers && Mark(x, m) in marks {
      if x in Accusers(marks, level, m) {
        var k :| k in marks && Counts(level, m, k) && k.censor == x;
        assert k == Mark(x, m);
      }
      if x in peers && Mark(x, m) in marks { assert Counts(level, m, Mark(x, m)); }
    }
  }

  lemma TwoMembersInvolved(c: Member)
    requires c <= 1
    ensures Involved([Mark(c, 0), Mark(1, 0)], map[0 := 1, 1 := 1], []) == {0, 1}
  {
    var marks := [Mark(c, 0), Mark(1, 0)];
    assert marks[0].target == 0 && marks[1].censor == 1;
  }

  lemma TwoMarksCount(c: Member, level: Levels)
    requires c <= 1 && LevelOf(level, 0) <= LevelOf(level, 1)
    ensures MarksAgainst([Mark(c, 0), Mark(1, 0)], level, 0) == 2
    ensures Accusers([Mark(c, 0), Mark(1, 0)], level, 0) == {1}
    ensures Accusers([Mark(c, 0), Mark(1, 0)], level, 1) == {}
  {
    var marks := [Mark(c, 0), Mark(1, 0)];
    MarksStep([], Mark(c, 0), level, 0);
    MarksStep([Mark(c, 0)], Mark(1, 0), level, 0);
    assert [] + [Mark(c, 0)] == [Mark(c, 0)] && [Mark(c, 0)] + [Mark(1, 0)] == marks;
    assert marks[1] in marks && Counts(level, 0, marks[1]);
  }

  lemma LevelsAtStart(c: Member)
    requires c <= 1
    ensures var level := ClosedForm([Mark(c, 0), Mark(1, 0)], map[0 := 1, 1 := 1], [], {});
            LevelOf(level, 0) == 1 && LevelOf(level, 1) == 1
  {
    TwoMembersInvolved(c);
    NothingLost([], {}, 0);
    NothingLost([], {}, 1);
    hide Involved, Lost;
  }

  lemma FirstRound(c: Member)
    requires c <= 1
    ensures 0 in Falls([Mark(c, 0), Mark(1, 0)], map[0 := 1, 1 := 1], [], {})
    ensures FairFalls([Mark(c, 0), Mark(1, 0)], map[0 := 1, 1 := 1], [], {}) == {}
  {
    hide MarksAgainst, Accusers, Involved, ClosedForm;
    var marks, levels := [Mark(c, 0), Mark(1, 0)], map[0 := 1, 1 := 1];
    var level := ClosedForm(marks, levels, [], {});
    TwoMembersInvolved(c);
    LevelsAtStart(c);
    TwoMarksCount(c, level);
    assert Eligible({0, 1}, level, 0) == {1} && Eligible({0, 1}, level, 1) == {0};
  }

  /** One other member is enough to discredit a member of the same level, with two entries of its own
      (`c == 1`) or with the member's own entry (`c == 0`); by the documentation nobody ever falls. */
  lemma {:induction false} OneMemberDiscredits(c: Member, n: nat)
    requires c <= 1
    ensures var marks, levels := [Mark(c, 0), Mark(1, 0)], map[0 := 1, 1 := 1];
            && (n >= 1 ==> 0 in Rounds(marks, levels, [], n))
            && FairRounds(marks, levels, [], n) == {}
  {
    hide Falls, FairFalls;
    if n > 0 {
      OneMemberDiscredits(c, n - 1);
      FirstRound(c);
    }
  }
}
