/** Liquid-democracy weights (`qucalc/src/lib.rs`, `gov::resolve_weights`). The walk along
    delegations, cut short at dead ends and cycles, finds the first direct voter among
    all iterates of the delegation, and nobody's weight is lost or counted twice. */
module Delegation {
  import opened Orders
  import opened Sums
  import opened Trust

  type Delegations = map<Member, Member>

  // ----- the reference

  /** Follow the delegation `n` times. */
  function Iterate(delegations: Delegations, m: Member, n: nat): Option<Member> {
    if n == 0 then Some(m)
    else
      var before := Iterate(delegations, m, n - 1);
      if before.Some? && before.value in delegations then Some(delegations[before.value]) else None
  }

  /** The `n`-th iterate is a direct voter. */
  predicate VoterAt(voters: set<Member>, delegations: Delegations, m: Member, n: nat) {
    var x := Iterate(delegations, m, n);
    x.Some? && x.value in voters
  }

  /** `d` is the first direct voter the delegations of `m` reach. */
  ghost predicate LandsAt(voters: set<Member>, delegations: Delegations, m: Member, d: Member) {
    exists n: nat :: n > 0 && Iterate(delegations, m, n) == Some(d) && d in voters
      && forall j: nat :: 0 < j < n ==> !VoterAt(voters, delegations, m, j)
  }

  /** The vote of `m` counts for `d`: its own if it voted, else where it lands. */
  ghost predicate CountsFor(voters: set<Member>, delegations: Delegations, m: Member, d: Member) {
    if m in voters then d == m else LandsAt(voters, delegations, m, d)
  }

  function Base(trust: Levels, m: Member): int {
    Max(1 + (if m in trust then trust[m] else 0), 0)
  }

  function Everyone(voters: set<Member>, delegations: Delegations, trust: Levels): set<Member> {
    voters + delegations.Keys + delegations.Values + trust.Keys
  }

  /** The weight of `d`: the bases of all whose vote counts for it. */
  ghost function WeightOf(
    voters: set<Member>, delegations: Delegations, trust: Levels, d: Member, members: set<Member>): int
  {
    SumSet((m: Member) => if CountsFor(voters, delegations, m, d) then Base(trust, m) else 0, members)
  }

  lemma {:induction false} IterateStops(delegations: Delegations, m: Member, k: nat, n: nat)
    requires k <= n && Iterate(delegations, m, k).None?
    ensures Iterate(delegations, m, n).None?
  {
    if k < n { IterateStops(delegations, m, k, n - 1); }
  }

  /** Iterates that enter a set closed under delegation stay in it. */
  lemma {:induction false} IterateStays(delegations: Delegations, m: Member, trap: set<Member>, n: nat)
    requires m in trap && forall x :: x in trap && x in delegations ==> delegations[x] in trap
    ensures Iterate(delegations, m, n).Some? ==> Iterate(delegations, m, n).value in trap
  {
    if n > 0 { IterateStays(delegations, m, trap, n - 1); }
  }

  lemma LandsOnce(voters: set<Member>, delegations: Delegations, m: Member, d: Member, e: Member)
    requires LandsAt(voters, delegations, m, d) && LandsAt(voters, delegations, m, e)
    ensures d == e
  {
    var i: nat :| i > 0 && Iterate(delegations, m, i) == Some(d) && d in voters
      && forall j: nat :: 0 < j < i ==> !VoterAt(voters, delegations, m, j);
    var k: nat :| k > 0 && Iterate(delegations, m, k) == Some(e) && e in voters
      && forall j: nat :: 0 < j < k ==> !VoterAt(voters, delegations, m, j);
    assert VoterAt(voters, delegations, m, i) && VoterAt(voters, delegations, m, k);
  }

  // ----- the walk

  /** From a member who did not vote: the first direct voter reached, or nothing. */
  method Walk(voters: set<Member>, delegations: Delegations, m: Member) returns (target: Option<Member>)
    requires m !in voters
    ensures target.Some? ==> LandsAt(voters, delegations, m, target.value)
    ensures target.None? ==> forall n: nat :: !VoterAt(voters, delegations, m, n)
  {
    var seen, cur := {m}, m;
    ghost var k: nat := 0;
    while true
      invariant Iterate(delegations, m, k) == Some(cur) && cur in seen && m in seen && seen !! voters
      invariant forall x :: x in seen && x != cur && x in delegations ==> delegations[x] in seen
      invariant forall j: nat :: j <= k ==> !VoterAt(voters, delegations, m, j)
      invariant seen <= {m} + delegations.Values
      decreases {m} + delegations.Values - seen
    {
      if cur !in delegations {
        assert Iterate(delegations, m, k + 1).None?;
        forall n: nat ensures !VoterAt(voters, delegations, m, n) {
          if n > k { IterateStops(delegations, m, k + 1, n); }
        }
        return None;
      }
      var next := delegations[cur];
      assert Iterate(delegations, m, k + 1) == Some(next);
      if next in voters { return Some(next); }
      if next in seen {
        forall n: nat ensures !VoterAt(voters, delegations, m, n) { IterateStays(delegations, m, seen, n); }
        return None;
      }
      seen, cur, k := seen + {next}, next, k + 1;
    }
  }

  // ----- the weights

  function WeightIn(weight: Levels, d: Member): int {
    if d in weight then weight[d] else 0
  }

  /** Adding the base of `m` to `d` moves the sums on by `m`. */
  lemma WeightStep(
    voters: set<Member>, delegations: Delegations, trust: Levels, d: Member, done: set<Member>, m: Member)
    requires m !in done
    ensures WeightOf(voters, delegations, trust, d, done + {m})
         == WeightOf(voters, delegations, trust, d, done)
            + (if CountsFor(voters, delegations, m, d) then Base(trust, m) else 0)
  {
    assert done + {m} - {m} == done;
    SumSetRemove((x: Member) => if CountsFor(voters, delegations, x, d) then Base(trust, x) else 0, done + {m}, m);
  }

  /** Where the vote of one member goes. */
  method Resolve(voters: set<Member>, delegations: Delegations, m: Member) returns (target: Option<Member>)
    ensures forall d: Member :: CountsFor(voters, delegations, m, d) <==> target == Some(d)
    ensures target.Some? ==> target.value in voters
    ensures m in voters ==> target == Some(m)
  {
    if m in voters { return Some(m); }
    target := Walk(voters, delegations, m);
    forall d: Member ensures LandsAt(voters, delegations, m, d) <==> target == Some(d) {
      if LandsAt(voters, delegations, m, d) {
        var n: nat :| n > 0 && Iterate(delegations, m, n) == Some(d) && d in voters
          && forall j: nat :: 0 < j < n ==> !VoterAt(voters, delegations, m, j);
        assert VoterAt(voters, delegations, m, n);
        if target.Some? { LandsOnce(voters, delegations, m, d, target.value); }
      }
    }
  }

  method ResolveWeights(directVoters: seq<Member>, delegations: Delegations, trust: Levels) returns (weight: Levels)
    ensures weight.Keys == set d | d in directVoters
    ensures forall d: Member :: d in weight ==>
              weight[d] == WeightOf(weight.Keys, delegations, trust, d, Everyone(weight.Keys, delegations, trust))
  {
    hide CountsFor, WeightOf;
    var voters := set d | d in directVoters;
    var everyone := Everyone(voters, delegations, trust);
    weight := map[];
    var todo := everyone;
    ghost var done := {};
    NoWeight(voters, delegations, trust);
    while todo != {}
      invariant todo !! done && todo + done == everyone
      invariant weight.Keys <= voters && voters * done <= weight.Keys
      invariant forall d: Member :: WeightIn(weight, d) == WeightOf(voters, delegations, trust, d, done)
      decreases todo
    {
      var m :| m in todo;
      var target := Resolve(voters, delegations, m);
      forall d: Member ensures WeightOf(voters, delegations, trust, d, done + {m})
                    == WeightOf(voters, delegations, trust, d, done) + (if target == Some(d) then Base(trust, m) else 0)
      {
        WeightStep(voters, delegations, trust, d, done, m);
      }
      if target.Some? {
        weight := weight[target.value := WeightIn(weight, target.value) + Base(trust, m)];
      }
      todo, done := todo - {m}, done + {m};
    }
    assert weight.Keys == voters && done == everyone;
  }

  lemma NoWeight(voters: set<Member>, delegations: Delegations, trust: Levels)
    ensures forall d: Member :: WeightOf(voters, delegations, trust, d, {}) == 0
  {
  }

  /** Everybody whose vote counts for somebody is among the members whose bases are added up. */
  lemma NobodyLeftOut(voters: set<Member>, delegations: Delegations, trust: Levels, m: Member, d: Member)
    requires CountsFor(voters, delegations, m, d)
    ensures m in Everyone(voters, delegations, trust)
  {
    if m !in voters {
      var n: nat :| n > 0 && Iterate(delegations, m, n) == Some(d) && d in voters
        && forall j: nat :: 0 < j < n ==> !VoterAt(voters, delegations, m, j);
      if m !in delegations { IterateStops(delegations, m, 1, n); }
    }
  }

  /** One for being a member and one for every level of trust; distrust takes it away, but never below nothing. */
  lemma BaseLaw(trust: Levels, m: Member, level: int)
    ensures m !in trust ==> Base(trust, m) == 1
    ensures Base(trust, m) > 0 <==> m !in trust || trust[m] >= 0
    ensures level >= 0 ==> Base(trust[m := level], m) == Base(trust - {m}, m) + level
    ensures level < 0 ==> Base(trust[m := level], m) == 0
  {
  }

  /** A direct voter keeps at least its own base. */
  lemma OwnBaseKept(voters: set<Member>, delegations: Delegations, trust: Levels, d: Member, members: set<Member>)
    requires d in voters && d in members
    ensures WeightOf(voters, delegations, trust, d, members) >= Base(trust, d)
  {
    var f := (m: Member) => if CountsFor(voters, delegations, m, d) then Base(trust, m) else 0;
    SumSetRemove(f, members, d);
    SumSetNonNegative(f, members - {d});
  }

  /** A member abstains exactly when no iterate of its delegation is a direct voter. */
  lemma AbstainsIff(voters: set<Member>, delegations: Delegations, m: Member)
    requires m !in voters
    ensures (forall d: Member :: !CountsFor(voters, delegations, m, d)) <==> forall n: nat :: !VoterAt(voters, delegations, m, n)
  {
    if n: nat :| VoterAt(voters, delegations, m, n) {
      var first := FirstVoter(voters, delegations, m, n);
      assert CountsFor(voters, delegations, m, Iterate(delegations, m, first).value);
    }
    if d: Member :| CountsFor(voters, delegations, m, d) {
      var n: nat :| n > 0 && Iterate(delegations, m, n) == Some(d) && d in voters
        && forall j: nat :: 0 < j < n ==> !VoterAt(voters, delegations, m, j);
      assert VoterAt(voters, delegations, m, n);
    }
  }

  lemma {:induction false} FirstVoter(voters: set<Member>, delegations: Delegations, m: Member, n: nat) returns (first: nat)
    requires m !in voters && VoterAt(voters, delegations, m, n)
    ensures first > 0 && VoterAt(voters, delegations, m, first)
    ensures forall j: nat :: 0 < j < first ==> !VoterAt(voters, delegations, m, j)
    decreases n
  {
    if j: nat :| 0 < j < n && VoterAt(voters, delegations, m, j) {
      first := FirstVoter(voters, delegations, m, j);
    } else {
      first := n;
    }
  }

  ghost predicate Votes(voters: set<Member>, delegations: Delegations, m: Member) {
    exists d: Member :: CountsFor(voters, delegations, m, d)
  }

  /** Nothing is lost or counted twice: the weights add up to the bases of all who do not abstain. */
  lemma {:induction false} TotalWeight(
    voters: set<Member>, delegations: Delegations, trust: Levels, members: set<Member>)
    ensures SumSet((d: Member) => WeightOf(voters, delegations, trust, d, members), voters)
         == SumSet((m: Member) => if Votes(voters, delegations, m) then Base(trust, m) else 0, members)
    decreases members
  {
    var total := (d: Member) => WeightOf(voters, delegations, trust, d, members);
    var bases := (m: Member) => if Votes(voters, delegations, m) then Base(trust, m) else 0;
    if members == {} {
      SumSetSame(total, (d: Member) => 0, voters);
      SumSetOnly((d: Member) => 0, voters, 0);
    } else {
      var m :| m in members;
      var rest := members - {m};
      var before := (d: Member) => WeightOf(voters, delegations, trust, d, rest);
      var own := (d: Member) => if CountsFor(voters, delegations, m, d) then Base(trust, m) else 0;
      forall d: Member ensures total(d) == before(d) + own(d) {
        assert rest + {m} == members;
        WeightStep(voters, delegations, trust, d, rest, m);
      }
      SumSetAdd(before, own, total, voters);
      TotalWeight(voters, delegations, trust, rest);
      SumSetRemove(bases, members, m);
      OneShare(voters, delegations, trust, m);
    }
  }

  /** The base of a member goes to one direct voter, or to none when it abstains. */
  lemma OneShare(voters: set<Member>, delegations: Delegations, trust: Levels, m: Member)
    ensures SumSet((d: Member) => if CountsFor(voters, delegations, m, d) then Base(trust, m) else 0, voters)
         == if Votes(voters, delegations, m) then Base(trust, m) else 0
  {
    var own := (d: Member) => if CountsFor(voters, delegations, m, d) then Base(trust, m) else 0;
    if d: Member :| CountsFor(voters, delegations, m, d) {
      forall e: Member | CountsFor(voters, delegations, m, e) ensures e == d {
        if m !in voters { LandsOnce(voters, delegations, m, d, e); }
      }
      SumSetOnly(own, voters, d);
    } else {
      SumSetOnly(own, voters, 0);
    }
  }
}
