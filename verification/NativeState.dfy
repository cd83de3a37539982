/** The native system state over its byte store (`rholang/src/native_state.rs`): the
    bonds and balance codecs, and operations that refine the ledger of two maps. */
module NativeState {
  import opened Orders
  import opened Bytes
  import opened Ledger

  const ENTRY_LEN := 73

  // ----- bonds codec

  /** One validator with its stake: 65 key bytes and 8 stake bytes. */
  function Entry(v: Validator, stake: Amount): (r: seq<byte>)
    ensures |r| == ENTRY_LEN
  {
    v + ToLE(stake, 8)
  }

  /** Read one entry; a stake with the sign bit set is refused. */
  function ReadEntry(chunk: seq<byte>): Option<(Validator, Amount)>
    requires |chunk| == ENTRY_LEN
  {
    var stake := FromLE(chunk[65..]);
    if stake < I64_LIMIT then Some((chunk[..65], stake)) else None
  }

  lemma EntryRoundTrip(v: Validator, stake: Amount)
    ensures ReadEntry(Entry(v, stake)) == Some((v, stake))
  {
    EightBytes();
    LittleEndianRoundTrip(stake, 8);
    assert Entry(v, stake)[65..] == ToLE(stake, 8) && Entry(v, stake)[..65] == v;
  }

  /** The map after reading whole entries from the front; a later entry for the same key wins. */
  function Decoded(bytes: seq<byte>): Option<Bonds> {
    if bytes == [] then Some(map[])
    else if |bytes| < ENTRY_LEN then None
    else
      match Decoded(bytes[..|bytes| - ENTRY_LEN])
      case None => None
      case Some(bonds) =>
        match ReadEntry(bytes[|bytes| - ENTRY_LEN..])
        case None => None
        case Some((v, stake)) => Some(bonds[v := stake])
  }

  lemma DecodedAppend(bytes: seq<byte>, bonds: Bonds, v: Validator, stake: Amount)
    requires Decoded(bytes) == Some(bonds)
    ensures Decoded(bytes + Entry(v, stake)) == Some(bonds[v := stake])
  {
    var longer := bytes + Entry(v, stake);
    assert longer[..|longer| - ENTRY_LEN] == bytes && longer[|longer| - ENTRY_LEN..] == Entry(v, stake);
    EntryRoundTrip(v, stake);
  }

  /** Validators in byte order, as the ordered map lists them. */
  predicate Before(v: Validator, w: Validator) {
    CompareLex(v, w, UnsignedByte) == Less
  }

  lemma BeforeTotal(v: Validator, w: Validator)
    ensures v == w || Before(v, w) || Before(w, v)
    ensures Before(v, w) ==> v != w && !Before(w, v)
  {
    LexEqualIff(v, w, UnsignedByte);
    LexSwap(v, w, UnsignedByte);
  }

  lemma BeforeTransitive(u: Validator, v: Validator, w: Validator)
    requires Before(u, v) && Before(v, w)
    ensures Before(u, w)
  {
    LexTransitive(u, v, w, UnsignedByte);
  }

  method FirstValidator(vs: set<Validator>) returns (first: Validator)
    requires vs != {}
    ensures first in vs && forall w :: w in vs && w != first ==> Before(first, w)
  {
    first :| first in vs;
    var todo := vs - {first};
    while todo != {}
      invariant todo <= vs && first in vs
      invariant forall w :: w in vs && w !in todo && w != first ==> Before(first, w)
      decreases todo
    {
      var v :| v in todo;
      BeforeTotal(v, first);
      if CompareLex(v, first, UnsignedByte) == Less {
        forall w | w in vs && w !in todo && w != first ensures Before(v, w) { BeforeTransitive(v, first, w); }
        first := v;
      }
      todo := todo - {v};
    }
  }

  /** Entries come in strictly ascending order of their keys. */
  ghost predicate Ascending(bytes: seq<byte>) {
    bytes != [] ==>
      && |bytes| >= ENTRY_LEN
      && var init, key := bytes[..|bytes| - ENTRY_LEN], bytes[|bytes| - ENTRY_LEN..][..65];
         Ascending(init) && Decoded(init).Some? && forall v :: v in Decoded(init).value ==> Before(v, key)
  }

  /** `encode_bonds`: in key order, and `decode_bonds` reads the map back. */
  method EncodeBonds(bonds: Bonds) returns (bytes: seq<byte>)
    ensures Decoded(bytes) == Some(bonds) && Ascending(bytes)
  {
    hide Decoded, Ascending, Entry, Before;
    bytes := [];
    EmptyEncoding();
    var todo := bonds.Keys;
    assert bonds - todo == map[];
    while todo != {}
      invariant todo <= bonds.Keys
      invariant Decoded(bytes) == Some(bonds - todo) && Ascending(bytes)
      invariant forall v, w :: v in bonds && v !in todo && w in todo ==> Before(v, w)
      decreases todo
    {
      var v := FirstValidator(todo);
      DecodedAppend(bytes, bonds - todo, v, bonds[v]);
      AscendingAppend(bytes, v, bonds[v]);
      bytes := bytes + Entry(v, bonds[v]);
      assert (bonds - todo)[v := bonds[v]] == bonds - (todo - {v});
      todo := todo - {v};
    }
    assert bonds - {} == bonds;
  }

  lemma EmptyEncoding()
    ensures Decoded([]) == Some(map[]) && Ascending([])
  {
  }

  lemma AscendingAppend(bytes: seq<byte>, v: Validator, stake: Amount)
    requires Decoded(bytes).Some? && Ascending(bytes) && forall w :: w in Decoded(bytes).value ==> Before(w, v)
    ensures Ascending(bytes + Entry(v, stake))
  {
    var longer := bytes + Entry(v, stake);
    assert longer[..|longer| - ENTRY_LEN] == bytes && longer[|longer| - ENTRY_LEN..] == Entry(v, stake);
    assert Entry(v, stake)[..65] == v;
  }

  /** In an ascending string the last key is the highest, and the rest is the map without it. */
  lemma LastIsHighest(a: seq<byte>)
    requires a != [] && Decoded(a).Some? && Ascending(a)
    ensures var (x, v, i) := SplitLast(a);
            && v in Decoded(a).value && Decoded(a).value[v] == i
            && Decoded(x).value == Decoded(a).value - {v}
            && forall w :: w in Decoded(a).value && w != v ==> Before(w, v)
  {
    hide Decoded, Ascending, Before, SplitLast;
    var (x, v, i) := SplitLast(a);
    BeforeTotal(v, v);
    assert v !in Decoded(x).value;
  }

  /** The encoding is canonical: a map has one. */
  lemma {:induction false} EncodingCanonical(a: seq<byte>, b: seq<byte>)
    requires Ascending(a) && Ascending(b) && Decoded(a).Some? && Decoded(a) == Decoded(b)
    ensures a == b
    decreases |a|
  {
    hide Decoded, Ascending, Before, SplitLast;
    NoEntries(a);
    NoEntries(b);
    if a != [] {
      var (x, v, i) := SplitLast(a);
      var (y, w, j) := SplitLast(b);
      LastIsHighest(a);
      LastIsHighest(b);
      BeforeTotal(v, w);
      EncodingCanonical(x, y);
    }
  }

  lemma NoEntries(a: seq<byte>)
    requires Decoded(a).Some?
    ensures Decoded(a).value == map[] <==> a == []
  {
    if a != [] {
      var last := SplitLast(a);
      assert last.1 in Decoded(a).value;
    }
  }

  /** A decodable string ends in the entry of its last key. */
  function SplitLast(a: seq<byte>): (r: (seq<byte>, Validator, Amount))
    requires a != [] && Decoded(a).Some?
    ensures a == r.0 + Entry(r.1, r.2) && Decoded(r.0).Some? && Decoded(a).value == Decoded(r.0).value[r.1 := r.2]
    ensures Ascending(a) ==> Ascending(r.0) && forall v :: v in Decoded(r.0).value ==> Before(v, r.1)
  {
    var init, chunk := a[..|a| - ENTRY_LEN], a[|a| - ENTRY_LEN..];
    var entry := ReadEntry(chunk).value;
    BytesRoundTrip(chunk[65..]);
    assert chunk == chunk[..65] + chunk[65..];
    assert a == init + chunk;
    (init, entry.0, entry.1)
  }

  lemma {:induction false} PrefixUndecodable(bytes: seq<byte>, n: nat)
    requires n <= |bytes| && n % ENTRY_LEN == |bytes| % ENTRY_LEN && Decoded(bytes[..n]).None?
    ensures Decoded(bytes).None?
    decreases |bytes|
  {
    if n == |bytes| {
      assert bytes[..n] == bytes;
    } else {
      var init := bytes[..|bytes| - ENTRY_LEN];
      assert init[..n] == bytes[..n];
      PrefixUndecodable(init, n);
    }
  }

  lemma {:induction false} DecodableLength(bytes: seq<byte>)
    requires Decoded(bytes).Some?
    ensures |bytes| % ENTRY_LEN == 0
  {
    if bytes != [] { DecodableLength(bytes[..|bytes| - ENTRY_LEN]); }
  }

  /** `decode_bonds`: chunk by chunk. */
  method DecodeBonds(bytes: seq<byte>) returns (r: Option<Bonds>)
    ensures r == Decoded(bytes)
  {
    if |bytes| % ENTRY_LEN != 0 {
      if Decoded(bytes).Some? { DecodableLength(bytes); }
      return None;
    }
    var bonds, i := map[], 0;
    while i < |bytes|
      invariant 0 <= i <= |bytes| && i % ENTRY_LEN == 0 && Decoded(bytes[..i]) == Some(bonds)
    {
      var chunk := bytes[i..i + ENTRY_LEN];
      var prefix := bytes[..i + ENTRY_LEN];
      assert prefix[..|prefix| - ENTRY_LEN] == bytes[..i] && prefix[|prefix| - ENTRY_LEN..] == chunk;
      var entry := ReadEntry(chunk);
      if entry.None? {
        PrefixUndecodable(bytes, i + ENTRY_LEN);
        return None;
      }
      bonds, i := bonds[entry.value.0 := entry.value.1], i + ENTRY_LEN;
    }
    assert bytes[..i] == bytes;
    r := Some(bonds);
  }

  // ----- the state over the byte store

  /** Leaves of the store. The source hashes them; the hash is taken to be injective. */
  datatype StoreKey = PosBonds | VaultLeaf(address: Address) | RegistryLeaf(uri: string)

  type ByteStore = map<StoreKey, seq<byte>>

  /** A vault leaf holds eight bytes, a non-negative 64-bit amount. */
  predicate IsAmount(bytes: seq<byte>) {
    |bytes| == 8 && FromLE(bytes) < I64_LIMIT
  }

  ghost predicate WellFormed(store: ByteStore) {
    && (PosBonds in store ==> Decoded(store[PosBonds]).Some?)
    && (forall k :: k in store && k.VaultLeaf? ==> IsAmount(store[k]))
  }

  ghost function BalancesIn(store: ByteStore): (r: Balances)
    requires WellFormed(store)
    ensures forall a :: a in r <==> VaultLeaf(a) in store
    ensures forall a :: a in r ==> r[a] == FromLE(store[VaultLeaf(a)])
  {
    map k | k in store && k.VaultLeaf? :: k.address := FromLE(store[k])
  }

  ghost function BondsIn(store: ByteStore): Bonds
    requires WellFormed(store)
  {
    if PosBonds in store then Decoded(store[PosBonds]).value else map[]
  }

  lemma AmountRoundTrip(n: Amount)
    ensures IsAmount(ToLE(n, 8)) && FromLE(ToLE(n, 8)) == n
  {
    EightBytes();
    LittleEndianRoundTrip(n, 8);
  }

  /** Writing a vault leaf or the bonds leaf changes one entry, or the whole bonds map. */
  lemma StoreWrites(store: ByteStore, a: Address, n: Amount, bytes: seq<byte>, bonds: Bonds)
    requires WellFormed(store) && Decoded(bytes) == Some(bonds)
    ensures WellFormed(store[VaultLeaf(a) := ToLE(n, 8)]) && WellFormed(store[PosBonds := bytes])
    ensures BalancesIn(store[VaultLeaf(a) := ToLE(n, 8)]) == BalancesIn(store)[a := n]
    ensures BondsIn(store[VaultLeaf(a) := ToLE(n, 8)]) == BondsIn(store)
    ensures BalancesIn(store[PosBonds := bytes]) == BalancesIn(store)
    ensures BondsIn(store[PosBonds := bytes]) == bonds
  {
    hide BalancesIn, IsAmount;
    AmountRoundTrip(n);
  }

  class NativeSystemState {
    var store: ByteStore
    const derive: Derivation

    ghost predicate Valid()
      reads this
    {
      WellFormed(store)
    }

    /** The two maps the bytes stand for. */
    ghost function View(): Ledger
      requires Valid()
      reads this
    {
      Ledger(BalancesIn(store), BondsIn(store))
    }

    constructor (derive: Derivation)
      ensures Valid() && View() == Ledger(map[], map[]) && this.derive == derive
    {
      this.derive := derive;
      store := map[];
    }

    method ReadBonds() returns (bonds: Bonds)
      requires Valid()
      ensures bonds == View().bonds
    {
      if PosBonds !in store { return map[]; }
      var r := DecodeBonds(store[PosBonds]);
      bonds := r.value;
    }

    method SetBonds(bonds: Bonds)
      requires Valid()
      modifies this
      ensures Valid() && View() == old(View()).(bonds := bonds)
    {
      var bytes := EncodeBonds(bonds);
      StoreWrites(store, "", 0, bytes, bonds);
      store := store[PosBonds := bytes];
    }

    method VaultBalance(a: Address) returns (balance: Option<Amount>)
      requires Valid()
      ensures balance == if a in View().balances then Some(View().balances[a]) else None
    {
      if VaultLeaf(a) !in store { return None; }
      balance := Some(FromLE(store[VaultLeaf(a)]));
    }

    method BalanceOrZero(a: Address) returns (balance: Amount)
      requires Valid()
      ensures balance == View().Balance(a)
    {
      var found := VaultBalance(a);
      balance := if found.Some? then found.value else 0;
    }

    method SetVaultBalance(a: Address, balance: Amount)
      requires Valid()
      modifies this
      ensures Valid() && View() == old(View()).(balances := old(View()).balances[a := balance])
    {
      assert Decoded([]) == Some(map[]);
      StoreWrites(store, a, balance, [], map[]);
      store := store[VaultLeaf(a) := ToLE(balance, 8)];
    }

    method FindOrCreateVault(a: Address) returns (o: Outcome)
      requires Valid()
      modifies this
      ensures Valid() && (View(), o) == Apply(old(View()), Operation.FindOrCreateVault(a), derive)
    {
      hide NativeSystemState.Valid, NativeSystemState.View;
      var found := VaultBalance(a);
      if found.None? { SetVaultBalance(a, 0); }
      o := Done;
    }

    method PreCharge(deployer: PublicKey, amount: int) returns (o: Outcome)
      requires Valid()
      modifies this
      ensures Valid() && (View(), o) == Apply(old(View()), Operation.PreCharge(deployer, amount), derive)
    {
      hide NativeSystemState.Valid, NativeSystemState.View;
      if amount == 0 { return Done; }
      var address := AddressOf(derive, deployer);
      if address.None? { return Broken; }
      var balance := BalanceOrZero(address.value);
      if balance < amount { return Refused; }
      if balance - amount >= I64_LIMIT { return Broken; }
      SetVaultBalance(address.value, balance - amount);
      o := Done;
    }

    method Slash(v: Validator) returns (o: Outcome)
      requires Valid()
      modifies this
      ensures Valid() && (View(), o) == Apply(old(View()), Operation.Slash(v), derive)
    {
      hide NativeSystemState.Valid, NativeSystemState.View;
      var bonds := ReadBonds();
      SetBonds(bonds - {v});
      o := Done;
    }

    method Bond(v: Validator, stake: Amount) returns (o: Outcome)
      requires Valid()
      modifies this
      ensures Valid() && (View(), o) == Apply(old(View()), Operation.Bond(v, stake), derive)
    {
      hide NativeSystemState.Valid, NativeSystemState.View;
      var bonds := ReadBonds();
      if v in bonds { return Refused; }
      var address := AddressOf(derive, v);
      if address.None? { return Broken; }
      var balance := BalanceOrZero(address.value);
      if balance < stake { return Refused; }
      SetVaultBalance(address.value, balance - stake);
      SetBonds(bonds[v := stake]);
      o := Done;
    }

    method Withdraw(v: Validator) returns (o: Outcome)
      requires Valid()
      modifies this
      ensures Valid() && (View(), o) == Apply(old(View()), Operation.Withdraw(v), derive)
    {
      hide NativeSystemState.Valid, NativeSystemState.View;
      var bonds := ReadBonds();
      if v !in bonds { return Broken; }
      var stake := bonds[v];
      SetBonds(bonds - {v});
      var address := AddressOf(derive, v);
      if address.None? { return Broken; }
      var balance := BalanceOrZero(address.value);
      if balance + stake >= I64_LIMIT { return Broken; }
      SetVaultBalance(address.value, balance + stake);
      o := Done;
    }
  }
}
