/** The native ledger as a state machine over two maps, vault balances and
    validator stakes, and what every run of it conserves (`rholang/src/native_state.rs`). */
module Ledger {
  import opened Orders
  import opened Sums
  import opened Bytes

  /** A validator's public key: 65 bytes. */
  type Validator = v: seq<byte> | |v| == 65 witness seq(65, i => 0)

  type PublicKey = seq<byte>

  type Address = string

  /** A non-negative 64-bit amount. */
  type Amount = n: int | 0 <= n < I64_LIMIT

  type Balances = map<Address, Amount>

  type Bonds = map<Validator, Amount>

  datatype Ledger = Ledger(balances: Balances, bonds: Bonds) {
    function Balance(a: Address): Amount {
      if a in balances then balances[a] else 0
    }
  }

  /** The hashing and encoding that turn a key of the right length into a vault address. */
  type Derivation = Validator -> Address

  /** A key has an address exactly when it is 65 bytes long, so every validator has one. */
  function AddressOf(derive: Derivation, key: PublicKey): Option<Address> {
    if |key| == 65 then Some(derive(key)) else None
  }

  datatype Operation =
    | PreCharge(deployer: PublicKey, amount: int)
    | Slash(validator: Validator)
    | Bond(validator: Validator, stake: Amount)
    | Withdraw(validator: Validator)
    | FindOrCreateVault(address: Address)

  /** `Refused` is the user-level failure, `Broken` the platform failure. */
  datatype Outcome = Done | Refused | Broken

  // ----- one operation

  function Apply(l: Ledger, op: Operation, derive: Derivation): (Ledger, Outcome) {
    match op
    case PreCharge(deployer, amount) => ApplyPreCharge(l, AddressOf(derive, deployer), amount)
    case Slash(v) => (l.(bonds := l.bonds - {v}), Done)
    case Bond(v, stake) => ApplyBond(l, v, stake, AddressOf(derive, v))
    case Withdraw(v) => ApplyWithdraw(l, v, AddressOf(derive, v))
    case FindOrCreateVault(a) => (if a in l.balances then l else l.(balances := l.balances[a := 0]), Done)
  }

  function ApplyPreCharge(l: Ledger, address: Option<Address>, amount: int): (Ledger, Outcome) {
    if amount == 0 then (l, Done)
    else if address.None? then (l, Broken)
    else
      var balance := l.Balance(address.value);
      if balance < amount then (l, Refused)
      else if balance - amount >= I64_LIMIT then (l, Broken)
      else (l.(balances := l.balances[address.value := balance - amount]), Done)
  }

  function ApplyBond(l: Ledger, v: Validator, stake: Amount, address: Option<Address>): (Ledger, Outcome) {
    if v in l.bonds then (l, Refused)
    else if address.None? then (l, Broken)
    else
      var balance := l.Balance(address.value);
      if balance < stake then (l, Refused)
      else (Ledger(l.balances[address.value := balance - stake], l.bonds[v := stake]), Done)
  }

  /** The bond is gone before the address and the new balance are looked at. */
  function ApplyWithdraw(l: Ledger, v: Validator, address: Option<Address>): (Ledger, Outcome) {
    if v !in l.bonds then (l, Broken)
    else
      var stake, rest := l.bonds[v], l.bonds - {v};
      if address.None? || l.Balance(address.value) + stake >= I64_LIMIT then (l.(bonds := rest), Broken)
      else (Ledger(l.balances[address.value := l.Balance(address.value) + stake], rest), Done)
  }

  // ----- totals

  ghost function Sum<K>(m: map<K, Amount>): int {
    SumSet((k: K) => if k in m then m[k] else 0, m.Keys)
  }

  ghost function Total(l: Ledger): int {
    Sum(l.balances) + Sum(l.bonds)
  }

  lemma SumRemoved<K>(m: map<K, Amount>, k: K)
    ensures Sum(m) == Sum(m - {k}) + (if k in m then m[k] else 0)
  {
    var rest := m - {k};
    assert rest.Keys == m.Keys - {k};
    SumSetSame((x: K) => if x in m then m[x] else 0, (x: K) => if x in rest then rest[x] else 0, rest.Keys);
    if k in m {
      SumSetRemove((x: K) => if x in m then m[x] else 0, m.Keys, k);
    } else {
      assert rest == m;
    }
  }

  lemma SumUpdated<K>(m: map<K, Amount>, k: K, v: Amount)
    ensures Sum(m[k := v]) == Sum(m) - (if k in m then m[k] else 0) + v
  {
    SumRemoved(m, k);
    SumRemoved(m[k := v], k);
    assert m[k := v] - {k} == m - {k};
  }

  lemma SumNatural<K>(m: map<K, Amount>)
    ensures Sum(m) >= 0
  {
    SumSetNonNegative((k: K) => if k in m then m[k] else 0, m.Keys);
  }

  /** One entry is at most the whole. */
  lemma EntryWithin<K>(m: map<K, Amount>, k: K)
    ensures (if k in m then m[k] else 0) <= Sum(m)
  {
    SumRemoved(m, k);
    SumNatural(m - {k});
  }

  // ----- conservation

  /** What an operation takes out of the ledger: a charge, a slashed stake, or a stake lost on the way out. */
  function Outflow(l: Ledger, op: Operation, derive: Derivation): int {
    var (after, outcome) := Apply(l, op, derive);
    match op
    case PreCharge(_, amount) => if outcome == Done then amount else 0
    case Slash(v) => if v in l.bonds then l.bonds[v] else 0
    case Bond(_, _) => 0
    case Withdraw(v) => if v in l.bonds && outcome == Broken then l.bonds[v] else 0
    case FindOrCreateVault(_) => 0
  }

  /** Every operation lowers the total by exactly its outflow; `bond` and a completed `withdraw` conserve it. */
  lemma StepConserves(l: Ledger, op: Operation, derive: Derivation)
    ensures Total(Apply(l, op, derive).0) == Total(l) - Outflow(l, op, derive)
  {
    hide Sum;
    match op
    case PreCharge(deployer, amount) =>
      if AddressOf(derive, deployer).Some? {
        var a := AddressOf(derive, deployer).value;
        var left := l.Balance(a) - amount;
        if 0 <= left < I64_LIMIT { SumUpdated(l.balances, a, left); }
      }
    case Slash(v) => SumRemoved(l.bonds, v);
    case Bond(v, stake) =>
      if AddressOf(derive, v).Some? && l.Balance(AddressOf(derive, v).value) >= stake {
        var a := AddressOf(derive, v).value;
        SumUpdated(l.balances, a, l.Balance(a) - stake);
        SumUpdated(l.bonds, v, stake);
      }
    case Withdraw(v) =>
      SumRemoved(l.bonds, v);
      if v in l.bonds && AddressOf(derive, v).Some? && l.Balance(AddressOf(derive, v).value) + l.bonds[v] < I64_LIMIT {
        var a := AddressOf(derive, v).value;
        SumUpdated(l.balances, a, l.Balance(a) + l.bonds[v]);
      }
    case FindOrCreateVault(a) => SumUpdated(l.balances, a, 0);
  }

  /** The key whose vault an operation may touch. */
  function Payer(op: Operation): PublicKey {
    match op
    case PreCharge(deployer, _) => deployer
    case Slash(v) => v
    case Bond(v, _) => v
    case Withdraw(v) => v
    case FindOrCreateVault(_) => []
  }

  /** An operation leaves every other balance and every other stake alone. */
  lemma OthersUntouched(l: Ledger, op: Operation, derive: Derivation, a: Address, v: Validator)
    ensures op.FindOrCreateVault? || AddressOf(derive, Payer(op)) != Some(a) ==> Apply(l, op, derive).0.Balance(a) == l.Balance(a)
    ensures op.PreCharge? || op.FindOrCreateVault? || Payer(op) != v ==>
              (v in Apply(l, op, derive).0.bonds <==> v in l.bonds)
              && (v in l.bonds ==> Apply(l, op, derive).0.bonds[v] == l.bonds[v])
  {
  }

  /** A user-level failure changes nothing. */
  lemma RefusalChangesNothing(l: Ledger, op: Operation, derive: Derivation)
    requires Apply(l, op, derive).1 == Refused
    ensures Apply(l, op, derive).0 == l
  {
  }

  /** A failed operation changes the ledger exactly when a bonded validator withdraws into a vault that
      would overflow: then the stake is lost. */
  lemma FailureLosesStakeIff(l: Ledger, op: Operation, derive: Derivation)
    ensures Apply(l, op, derive).1 != Done && Apply(l, op, derive).0 != l <==>
              && op.Withdraw? && op.validator in l.bonds
              && l.Balance(derive(op.validator)) + l.bonds[op.validator] >= I64_LIMIT
  {
    if op.Withdraw? && op.validator in l.bonds {
      assert op.validator !in Apply(l, op, derive).0.bonds;
    }
  }

  /** One token staked beside a full vault is lost on the way out. */
  lemma FullVaultLosesStake(v: Validator, derive: Derivation)
    ensures var l := Ledger(map[derive(v) := I64_LIMIT - 1], map[v := 1]);
            Apply(l, Withdraw(v), derive) == (Ledger(l.balances, map[]), Broken)
  {
    assert map[v := 1 as Amount] - {v} == map[];
  }

  /** With the supply within 64 bits, every bonded validator's withdrawal completes. */
  lemma WithdrawCompletes(l: Ledger, v: Validator, derive: Derivation)
    requires Total(l) < I64_LIMIT
    ensures Apply(l, Withdraw(v), derive).1 == Done <==> v in l.bonds
  {
    hide Sum;
    if v in l.bonds {
      EntryWithin(l.balances, derive(v));
      EntryWithin(l.bonds, v);
    }
  }

  // ----- what each operation does

  /** A charge completes exactly when it is 0, or the key has an address whose balance covers it and whose rest
      fits; then that balance falls by it. A shortfall is refused, anything else is a platform failure. */
  lemma ChargeCompletes(l: Ledger, key: PublicKey, amount: int, derive: Derivation)
    ensures var (after, o) := Apply(l, PreCharge(key, amount), derive);
            && (o == Done <==> amount == 0 || (|key| == 65 && 0 <= l.Balance(derive(key)) - amount < I64_LIMIT))
            && (o == Refused <==> amount != 0 && |key| == 65 && l.Balance(derive(key)) < amount)
            && (o == Done && amount != 0 ==> after.Balance(derive(key)) == l.Balance(derive(key)) - amount)
  {
  }

  /** A bond completes exactly when the validator is not bonded and its vault covers the stake; then the stake moves
      from the vault to the bond. Otherwise it is refused. */
  lemma BondCompletes(l: Ledger, v: Validator, stake: Amount, derive: Derivation)
    ensures var (after, o) := Apply(l, Bond(v, stake), derive);
            && (o == Done <==> v !in l.bonds && l.Balance(derive(v)) >= stake)
            && (o != Done ==> o == Refused)
            && (o == Done ==> after.Balance(derive(v)) == l.Balance(derive(v)) - stake && v in after.bonds && after.bonds[v] == stake)
  {
  }

  /** A withdrawal completes exactly when the validator is bonded and its vault has room; then the stake moves back.
      Otherwise it is a platform failure. */
  lemma WithdrawMoves(l: Ledger, v: Validator, derive: Derivation)
    ensures var (after, o) := Apply(l, Withdraw(v), derive);
            && (o == Done <==> v in l.bonds && l.Balance(derive(v)) + l.bonds[v] < I64_LIMIT)
            && (o != Done ==> o == Broken)
            && v !in after.bonds
            && (o == Done ==> after.Balance(derive(v)) == l.Balance(derive(v)) + l.bonds[v])
  {
  }

  /** Slashing and creating a vault always complete; afterwards there is no bond, and there is a vault. */
  lemma SlashAndCreate(l: Ledger, v: Validator, a: Address, derive: Derivation)
    ensures var (after, o) := Apply(l, Slash(v), derive); o == Done && v !in after.bonds && after.balances == l.balances
    ensures var (after, o) := Apply(l, FindOrCreateVault(a), derive);
            && o == Done && after.bonds == l.bonds
            && after.balances.Keys == l.balances.Keys + {a} && forall x :: after.Balance(x) == l.Balance(x)
  {
  }

  /** A validator that bonds and withdraws has what it had. */
  lemma BondThenWithdraw(l: Ledger, v: Validator, stake: Amount, derive: Derivation)
    requires Apply(l, Bond(v, stake), derive).1 == Done
    ensures var after := Apply(Apply(l, Bond(v, stake), derive).0, Withdraw(v), derive);
            after.1 == Done && after.0.bonds == l.bonds && forall a :: after.0.Balance(a) == l.Balance(a)
  {
    assert l.bonds[v := stake] - {v} == l.bonds;
  }

  // ----- runs

  function Run(l: Ledger, ops: seq<Operation>, derive: Derivation): Ledger {
    if ops == [] then l else Apply(Run(l, ops[..|ops| - 1], derive), ops[|ops| - 1], derive).0
  }

  function TotalOutflow(l: Ledger, ops: seq<Operation>, derive: Derivation): int {
    if ops == [] then 0
    else
      var init := ops[..|ops| - 1];
      TotalOutflow(l, init, derive) + Outflow(Run(l, init, derive), ops[|ops| - 1], derive)
  }

  /** Over every run, vaults plus stakes plus everything taken out equals what there was at the start. */
  lemma {:induction false} RunConserves(l: Ledger, ops: seq<Operation>, derive: Derivation)
    ensures Total(Run(l, ops, derive)) + TotalOutflow(l, ops, derive) == Total(l)
  {
    hide Total, Apply, Outflow;
    if ops != [] {
      var init := ops[..|ops| - 1];
      RunConserves(l, init, derive);
      StepConserves(Run(l, init, derive), ops[|ops| - 1], derive);
    }
  }

  predicate NonNegativeCharges(ops: seq<Operation>) {
    forall i :: 0 <= i < |ops| && ops[i].PreCharge? ==> ops[i].amount >= 0
  }

  /** Without negative charges the supply never grows, so it stays within 64 bits. */
  lemma {:induction false} SupplyNeverGrows(l: Ledger, ops: seq<Operation>, derive: Derivation)
    requires NonNegativeCharges(ops)
    ensures 0 <= Total(Run(l, ops, derive)) <= Total(l)
  {
    hide Sum, Apply;
    SumNatural(Run(l, ops, derive).balances);
    SumNatural(Run(l, ops, derive).bonds);
    if ops != [] {
      var init := ops[..|ops| - 1];
      SupplyNeverGrows(l, init, derive);
      StepConserves(Run(l, init, derive), ops[|ops| - 1], derive);
    }
  }

  /** What an operation is meant to take out: a completed charge, or the slashed stake. */
  function Taken(l: Ledger, op: Operation, derive: Derivation): int {
    match op
    case PreCharge(_, amount) => if Apply(l, op, derive).1 == Done then amount else 0
    case Slash(v) => if v in l.bonds then l.bonds[v] else 0
    case Bond(_, _) => 0
    case Withdraw(_) => 0
    case FindOrCreateVault(_) => 0
  }

  function TotalTaken(l: Ledger, ops: seq<Operation>, derive: Derivation): int {
    if ops == [] then 0
    else
      var init := ops[..|ops| - 1];
      TotalTaken(l, init, derive) + Taken(Run(l, init, derive), ops[|ops| - 1], derive)
  }

  lemma NothingLost(l: Ledger, op: Operation, derive: Derivation)
    requires Total(l) < I64_LIMIT
    ensures Outflow(l, op, derive) == Taken(l, op, derive)
  {
    hide Total;
    if op.Withdraw? { WithdrawCompletes(l, op.validator, derive); }
  }

  /** From a supply within 64 bits and without negative charges, only completed charges and slashes ever lower
      the total, and every withdrawal of a bonded stake, at any point of the run, completes. */
  lemma {:induction false} BoundedRunConserves(l: Ledger, ops: seq<Operation>, derive: Derivation)
    requires NonNegativeCharges(ops) && Total(l) < I64_LIMIT
    ensures Total(Run(l, ops, derive)) + TotalTaken(l, ops, derive) == Total(l)
    ensures forall i :: 0 <= i < |ops| && ops[i].Withdraw? ==>
              var before := Run(l, ops[..i], derive);
              Apply(before, ops[i], derive).1 == Done <==> ops[i].validator in before.bonds
  {
    hide Total, Apply, Outflow, Taken;
    if ops != [] {
      var init, op := ops[..|ops| - 1], ops[|ops| - 1];
      BoundedRunConserves(l, init, derive);
      SupplyNeverGrows(l, init, derive);
      StepConserves(Run(l, init, derive), op, derive);
      NothingLost(Run(l, init, derive), op, derive);
      forall i | 0 <= i < |ops| && ops[i].Withdraw?
        ensures Apply(Run(l, ops[..i], derive), ops[i], derive).1 == Done
           <==> ops[i].validator in Run(l, ops[..i], derive).bonds
      {
        if i < |init| {
          assert init[..i] == ops[..i] && init[i] == ops[i];
        } else {
          WithdrawCompletes(Run(l, init, derive), op.validator, derive);
        }
      }
    }
  }
}
