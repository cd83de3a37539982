/** The mergeable-store codecs and the block seed (`rholang/src/merging.rs`,
    `casper/src/block_random_seed.rs`). Zigzag is given by its arithmetic meaning. */
module Codecs {
  import opened Orders
  import opened Bytes

  // ----- zigzag and varint

  function Zigzag(n: I64): (u: int)
    ensures 0 <= u < U64_LIMIT
  {
    if n >= 0 then 2 * n else -2 * n - 1
  }

  lemma ZigzagInjective(m: I64, n: I64)
    requires Zigzag(m) == Zigzag(n)
    ensures m == n
  {
    assert Zigzag(m) % 2 == 0 <==> m >= 0;
    assert Zigzag(n) % 2 == 0 <==> n >= 0;
  }

  /** The sign is the lowest bit; half of the rest is the value, or one less than its negation. */
  function Unzigzag(u: int): I64
    requires 0 <= u < U64_LIMIT
  {
    if u % 2 == 0 then u / 2 else -(u / 2) - 1
  }

  lemma ZigzagRoundTrip(n: I64, u: int)
    requires 0 <= u < U64_LIMIT
    ensures Unzigzag(Zigzag(n)) == n && Zigzag(Unzigzag(u)) == u
    ensures Zigzag(n) % 2 == 0 <==> n >= 0
  {
  }

  /** Seven bits at a time, low first, the high bit marking that more follow. */
  function Varint(n: int): (r: seq<byte>)
    requires n >= 0
    ensures |r| >= 1
  {
    if n < 128 then [n] else [n % 128 + 128] + Varint(n / 128)
  }

  method VarintEncode(n: int) returns (out: seq<byte>)
    requires n >= 0
    ensures out == Varint(n)
  {
    out := [];
    var left := n;
    while left >= 128
      invariant left >= 0 && Varint(n) == out + Varint(left)
    {
      VarintStep(left, out);
      hide Varint;
      out := out + [left % 128 + 128];
      left := left / 128;
    }
    out := out + [left];
  }

  lemma VarintStep(n: int, before: seq<byte>)
    requires n >= 128
    ensures before + Varint(n) == before + [n % 128 + 128] + Varint(n / 128)
  {
  }

  /** A varint tells where it ends: two of them followed by anything agree only if they are equal. */
  lemma {:induction false} VarintSelfDelimiting(m: int, n: int, r: seq<byte>, s: seq<byte>)
    requires m >= 0 && n >= 0 && Varint(m) + r == Varint(n) + s
    ensures m == n && r == s
    decreases m
  {
    var a, b := Varint(m) + r, Varint(n) + s;
    assert a[0] == Varint(m)[0] && b[0] == Varint(n)[0];
    if m < 128 {
      assert n < 128;
      assert a[1..] == r && b[1..] == s;
    } else {
      assert n >= 128;
      assert a[1..] == Varint(m / 128) + r && b[1..] == Varint(n / 128) + s;
      VarintSelfDelimiting(m / 128, n / 128, r, s);
      assert m == 128 * (m / 128) + m % 128 && n == 128 * (n / 128) + n % 128;
    }
  }

  /** Read a varint off the front: each byte below 128 ends it, each other one adds its low seven bits. */
  function TakeVarint(bytes: seq<byte>): Option<(int, seq<byte>)> {
    if bytes == [] then None
    else if bytes[0] < 128 then Some((bytes[0] as int, bytes[1..]))
    else
      match TakeVarint(bytes[1..])
      case None => None
      case Some((n, rest)) => Some((128 * n + (bytes[0] - 128), rest))
  }

  lemma {:induction false} VarintRoundTrip(n: int, rest: seq<byte>)
    requires n >= 0
    ensures TakeVarint(Varint(n) + rest) == Some((n, rest))
  {
    var bytes := Varint(n) + rest;
    if n < 128 {
      assert bytes[1..] == rest;
    } else {
      VarintRoundTrip(n / 128, rest);
      assert bytes[1..] == Varint(n / 128) + rest;
    }
  }

  function TakeVlong(bytes: seq<byte>): Option<(I64, seq<byte>)> {
    match TakeVarint(bytes)
    case Some((u, rest)) => if 0 <= u < U64_LIMIT then Some((Unzigzag(u), rest)) else None
    case None => None
  }

  lemma VlongRoundTrip(n: I64, rest: seq<byte>)
    ensures TakeVlong(Vlong(n) + rest) == Some((n, rest))
  {
    VarintRoundTrip(Zigzag(n), rest);
    ZigzagRoundTrip(n, 0);
  }

  function Pow128(k: nat): int {
    if k == 0 then 1 else 128 * Pow128(k - 1)
  }

  lemma {:induction false} VarintLength(n: int, k: nat)
    requires 0 <= n < Pow128(k) && k >= 1
    ensures |Varint(n)| <= k
  {
    if n >= 128 {
      assert Pow128(1) == 128;
      assert n / 128 < Pow128(k - 1);
      VarintLength(n / 128, k - 1);
    }
  }

  function Vlong(n: I64): seq<byte> {
    Varint(Zigzag(n))
  }

  lemma VlongSelfDelimiting(m: I64, n: I64, r: seq<byte>, s: seq<byte>)
    requires Vlong(m) + r == Vlong(n) + s
    ensures m == n && r == s
  {
    VarintSelfDelimiting(Zigzag(m), Zigzag(n), r, s);
    ZigzagInjective(m, n);
  }

  /** A `vlong` takes at most ten bytes. */
  lemma VlongLength(n: I64)
    ensures 1 <= |Vlong(n)| <= 10
  {
    assert Pow128(1) == 128;
    assert Pow128(2) == 0x4000;
    assert Pow128(3) == 0x20_0000;
    assert Pow128(4) == 0x1000_0000;
    assert Pow128(5) == 0x8_0000_0000;
    assert Pow128(6) == 0x400_0000_0000;
    assert Pow128(7) == 0x2_0000_0000_0000;
    assert Pow128(8) == 0x100_0000_0000_0000;
    assert Pow128(9) == 0x8000_0000_0000_0000;
    assert Pow128(10) == 0x40_0000_0000_0000_0000;
    VarintLength(Zigzag(n), 10);
  }

  // ----- the mergeable-store key

  type Hash = h: seq<byte> | |h| == 32 witness seq(32, i => 0)

  const U16_LIMIT := 0x1_0000

  /** A 16-bit length, truncated as the source's cast does, then the bytes. */
  function VarSizeU16(bytes: seq<byte>): seq<byte> {
    ToBE(|bytes| % U16_LIMIT, 2) + bytes
  }

  function MergeableKey(stateHash: Hash, creator: seq<byte>, seqNum: I64): seq<byte> {
    VarSizeU16(stateHash) + VarSizeU16(creator) + Vlong(seqNum)
  }

  lemma TwoBytes(n: int)
    requires 0 <= n < U16_LIMIT
    ensures FromBE(ToBE(n, 2)) == n
  {
    assert Pow256(1) == 256 && Pow256(2) == U16_LIMIT;
    BigEndianRoundTrip(n, 2);
  }

  /** Keys are distinct for all creators, even those too long for the 16-bit length. */
  lemma MergeableKeyInjective(h: Hash, c: seq<byte>, n: I64, h': Hash, c': seq<byte>, n': I64)
    requires MergeableKey(h, c, n) == MergeableKey(h', c', n')
    ensures h == h' && c == c' && n == n'
  {
    var a, b := MergeableKey(h, c, n), MergeableKey(h', c', n');
    assert a[2..34] == h && b[2..34] == h';
    assert a[34..36] == ToBE(|c| % U16_LIMIT, 2) && b[34..36] == ToBE(|c'| % U16_LIMIT, 2);
    TwoBytes(|c| % U16_LIMIT);
    TwoBytes(|c'| % U16_LIMIT);
    VlongLength(n);
    VlongLength(n');
    assert |a| == 36 + |c| + |Vlong(n)| && |b| == 36 + |c'| + |Vlong(n')|;
    SameLength(|c|, |c'|, |Vlong(n)|, |Vlong(n')|);
    assert a[36..36 + |c|] == c && b[36..36 + |c|] == c';
    assert a[36 + |c|..] == Vlong(n) && b[36 + |c|..] == Vlong(n');
    assert Vlong(n) + [] == Vlong(n') + [];
    VlongSelfDelimiting(n, n', [], []);
  }

  lemma SameLength(x: nat, y: nat, i: nat, j: nat)
    requires x % U16_LIMIT == y % U16_LIMIT && x + i == y + j && 1 <= i <= 10 && 1 <= j <= 10
    ensures x == y
  {
    assert x == U16_LIMIT * (x / U16_LIMIT) + x % U16_LIMIT;
    assert y == U16_LIMIT * (y / U16_LIMIT) + y % U16_LIMIT;
  }

  /** Read a string after its 16-bit big-endian length. */
  function TakeSizedU16(bytes: seq<byte>): Option<(seq<byte>, seq<byte>)> {
    if |bytes| < 2 then None
    else
      var n := 256 * (bytes[0] as int) + bytes[1] as int;
      if |bytes| < 2 + n then None else Some((bytes[2..2 + n], bytes[2 + n..]))
  }

  /** The reference reading of a key: a sized hash, a sized creator and a number, with nothing left over. */
  function ReadKey(bytes: seq<byte>): Option<(seq<byte>, seq<byte>, I64)> {
    match TakeSizedU16(bytes)
    case None => None
    case Some((hash, rest)) =>
      match TakeSizedU16(rest)
      case None => None
      case Some((creator, tail)) =>
        match TakeVlong(tail)
        case Some((n, left)) => if left == [] then Some((hash, creator, n)) else None
        case None => None
  }

  lemma SizedRoundTrip(x: seq<byte>, rest: seq<byte>)
    requires |x| < U16_LIMIT
    ensures TakeSizedU16(VarSizeU16(x) + rest) == Some((x, rest))
  {
    var bytes := VarSizeU16(x) + rest;
    TwoDigits(|x|);
    assert bytes[..2] == ToBE(|x|, 2);
    assert bytes[2..2 + |x|] == x && bytes[2 + |x|..] == rest;
  }

  lemma TwoDigits(n: int)
    requires 0 <= n < U16_LIMIT
    ensures ToBE(n, 2)[0] == n / 256 && ToBE(n, 2)[1] == n % 256
  {
    assert Pow256(1) == 256;
    BigEndianDigit(n, 2, 0);
    BigEndianDigit(n, 2, 1);
  }

  /** Reading a key gives back its parts exactly when the creator's length fits 16 bits. */
  lemma KeyRoundTripIff(h: Hash, c: seq<byte>, n: I64)
    ensures ReadKey(MergeableKey(h, c, n)) == Some((h, c, n)) <==> |c| < U16_LIMIT
  {
    hide TakeVlong, Vlong;
    assert MergeableKey(h, c, n) == VarSizeU16(h) + (VarSizeU16(c) + Vlong(n));
    SizedRoundTrip(h, VarSizeU16(c) + Vlong(n));
    if |c| < U16_LIMIT {
      SizedRoundTrip(c, Vlong(n));
      assert Vlong(n) + [] == Vlong(n);
      VlongRoundTrip(n, []);
    } else {
      var rest := VarSizeU16(c) + Vlong(n);
      assert TakeSizedU16(rest).Some? ==> |TakeSizedU16(rest).value.0| == 256 * rest[0] + rest[1] < U16_LIMIT;
    }
  }

  // ----- the block seed

  datatype Seed = Seed(shard: seq<byte>, number: I64, sender: seq<byte>, preState: Hash)

  /** A one-byte length, then the bytes; longer strings are refused. */
  function VarSize(bytes: seq<byte>): Option<seq<byte>> {
    if |bytes| < 256 then Some([|bytes|] + bytes) else None
  }

  function EncodeSeed(s: Seed): Option<seq<byte>> {
    match (VarSize(s.shard), VarSize(s.sender))
    case (Some(shard), Some(sender)) => Some(shard + Vlong(s.number) + sender + s.preState)
    case _ => None
  }

  lemma VarSizeSelfDelimiting(x: seq<byte>, y: seq<byte>, r: seq<byte>, s: seq<byte>)
    requires |x| < 256 && |y| < 256 && [|x|] + x + r == [|y|] + y + s
    ensures x == y && r == s
  {
    var a, b := [|x|] + x + r, [|y|] + y + s;
    assert a[0] == |x| && b[0] == |y|;
    assert a[1..1 + |x|] == x && b[1..1 + |x|] == y;
    assert a[1 + |x|..] == r && b[1 + |x|..] == s;
  }

  /** The seed encoding is injective wherever it succeeds. */
  lemma SeedInjective(s: Seed, t: Seed)
    requires EncodeSeed(s).Some? && EncodeSeed(s) == EncodeSeed(t)
    ensures s == t
  {
    var senderS, senderT := [|s.sender|] + s.sender, [|t.sender|] + t.sender;
    var tailS, tailT := Vlong(s.number) + (senderS + s.preState), Vlong(t.number) + (senderT + t.preState);
    assert EncodeSeed(s).value == [|s.shard|] + s.shard + tailS;
    assert EncodeSeed(t).value == [|t.shard|] + t.shard + tailT;
    VarSizeSelfDelimiting(s.shard, t.shard, tailS, tailT);
    VlongSelfDelimiting(s.number, t.number, senderS + s.preState, senderT + t.preState);
    VarSizeSelfDelimiting(s.sender, t.sender, s.preState, t.preState);
  }

  /** Read a string after its one-byte length. */
  function TakeSized(bytes: seq<byte>): Option<(seq<byte>, seq<byte>)> {
    if bytes == [] then None
    else
      var n: int := bytes[0];
      if |bytes| < 1 + n then None else Some((bytes[1..1 + n], bytes[1 + n..]))
  }

  /** The reference reading of a seed: a sized shard, a number, a sized sender and the 32 bytes left. */
  function ReadSeed(bytes: seq<byte>): Option<Seed> {
    match TakeSized(bytes)
    case None => None
    case Some((shard, rest)) =>
      match TakeVlong(rest)
      case None => None
      case Some((number, tail)) =>
        match TakeSized(tail)
        case Some((sender, hash)) => if |hash| == 32 then Some(Seed(shard, number, sender, hash)) else None
        case None => None
  }

  /** Reading an encoded seed gives it back. */
  lemma SeedRoundTrip(s: Seed)
    requires EncodeSeed(s).Some?
    ensures ReadSeed(EncodeSeed(s).value) == Some(s)
  {
    hide TakeVlong, Vlong;
    var sender := [|s.sender|] + s.sender + s.preState;
    var tail := Vlong(s.number) + sender;
    var all := [|s.shard|] + s.shard + tail;
    assert EncodeSeed(s).value == all;
    assert all[1..1 + |s.shard|] == s.shard && all[1 + |s.shard|..] == tail;
    VlongRoundTrip(s.number, sender);
    assert sender[1..1 + |s.sender|] == s.sender && sender[1 + |s.sender|..] == s.preState;
  }

  /** It fails exactly on components longer than a byte can count. */
  lemma SeedEncodesIff(s: Seed)
    ensures EncodeSeed(s).Some? <==> |s.shard| < 256 && |s.sender| < 256
  {
  }

  // ----- mergeable data

  datatype NumberChannel = NumberChannel(hash: Hash, diff: I64)

  /** One deploy's channels. */
  type DeployData = seq<NumberChannel>

  function EncodeChannel(c: NumberChannel): (r: seq<byte>)
    ensures |r| == 40
  {
    c.hash + ToBE(ToUnsigned(c.diff), 8)
  }

  function EncodeChannels(cs: seq<NumberChannel>): seq<byte> {
    if cs == [] then [] else EncodeChannel(cs[0]) + EncodeChannels(cs[1..])
  }

  function EncodeDeploy(d: DeployData): seq<byte> {
    ToBE(|d| % U16_LIMIT, 2) + EncodeChannels(d)
  }

  function EncodeDeploys(ds: seq<DeployData>): seq<byte> {
    if ds == [] then [] else EncodeDeploy(ds[0]) + EncodeDeploys(ds[1..])
  }

  function EncodeData(ds: seq<DeployData>): seq<byte> {
    ToBE(|ds| % U16_LIMIT, 2) + EncodeDeploys(ds)
  }

  /** Read a 16-bit number off the front. */
  function TakeU16(bytes: seq<byte>): Option<(int, seq<byte>)> {
    if |bytes| < 2 then None else Some((FromBE(bytes[..2]), bytes[2..]))
  }

  function TakeChannel(bytes: seq<byte>): Option<(NumberChannel, seq<byte>)> {
    if |bytes| < 40 then None
    else
      BigEndianBound(bytes[32..40]);
      EightBytes();
      Some((NumberChannel(bytes[..32], ToSigned(FromBE(bytes[32..40]))), bytes[40..]))
  }

  function TakeChannels(bytes: seq<byte>, n: nat): Option<(seq<NumberChannel>, seq<byte>)> {
    if n == 0 then Some(([], bytes))
    else
      match TakeChannels(bytes, n - 1)
      case None => None
      case Some((cs, rest)) =>
        match TakeChannel(rest)
        case None => None
        case Some((c, rest')) => Some((cs + [c], rest'))
  }

  function TakeDeploy(bytes: seq<byte>): Option<(DeployData, seq<byte>)> {
    match TakeU16(bytes)
    case None => None
    case Some((n, rest)) => TakeChannels(rest, n)
  }

  function TakeDeploys(bytes: seq<byte>, n: nat): Option<(seq<DeployData>, seq<byte>)> {
    if n == 0 then Some(([], bytes))
    else
      match TakeDeploys(bytes, n - 1)
      case None => None
      case Some((ds, rest)) =>
        match TakeDeploy(rest)
        case None => None
        case Some((d, rest')) => Some((ds + [d], rest'))
  }

  /** The reference decoder; what follows the last deploy is ignored. */
  function DecodeData(bytes: seq<byte>): Option<seq<DeployData>> {
    match TakeU16(bytes)
    case None => None
    case Some((n, rest)) =>
      match TakeDeploys(rest, n)
      case None => None
      case Some((ds, _)) => Some(ds)
  }

  lemma ChannelRoundTrip(c: NumberChannel, rest: seq<byte>)
    ensures TakeChannel(EncodeChannel(c) + rest) == Some((c, rest))
  {
    var bytes := EncodeChannel(c) + rest;
    EightBytes();
    BigEndianRoundTrip(ToUnsigned(c.diff), 8);
    assert bytes[..32] == c.hash && bytes[32..40] == ToBE(ToUnsigned(c.diff), 8) && bytes[40..] == rest;
  }

  lemma {:induction false} EncodeChannelsAppend(cs: seq<NumberChannel>, c: NumberChannel)
    ensures EncodeChannels(cs + [c]) == EncodeChannels(cs) + EncodeChannel(c)
  {
    hide EncodeChannel;
    if cs == [] {
      assert [] + [c] == [c] && [c][1..] == [];
    } else {
      assert (cs + [c])[0] == cs[0] && (cs + [c])[1..] == cs[1..] + [c];
      EncodeChannelsAppend(cs[1..], c);
    }
  }

  lemma {:induction false} ChannelsRoundTrip(cs: seq<NumberChannel>, rest: seq<byte>)
    ensures TakeChannels(EncodeChannels(cs) + rest, |cs|) == Some((cs, rest))
    decreases |cs|
  {
    hide EncodeChannel, TakeChannel;
    if cs != [] {
      var init, last := cs[..|cs| - 1], cs[|cs| - 1];
      assert cs == init + [last];
      EncodeChannelsAppend(init, last);
      assert EncodeChannels(cs) + rest == EncodeChannels(init) + (EncodeChannel(last) + rest);
      ChannelsRoundTrip(init, EncodeChannel(last) + rest);
      ChannelRoundTrip(last, rest);
    } else {
      assert [] + rest == rest;
    }
  }

  lemma U16RoundTrip(n: int, rest: seq<byte>)
    requires 0 <= n < U16_LIMIT
    ensures TakeU16(ToBE(n, 2) + rest) == Some((n, rest))
  {
    var bytes := ToBE(n, 2) + rest;
    TwoBytes(n);
    assert bytes[..2] == ToBE(n, 2) && bytes[2..] == rest;
  }

  lemma DeployRoundTrip(d: DeployData, rest: seq<byte>)
    requires |d| < U16_LIMIT
    ensures TakeDeploy(EncodeDeploy(d) + rest) == Some((d, rest))
  {
    hide TakeU16, TakeChannels, EncodeChannels;
    assert EncodeDeploy(d) + rest == ToBE(|d|, 2) + (EncodeChannels(d) + rest);
    U16RoundTrip(|d|, EncodeChannels(d) + rest);
    ChannelsRoundTrip(d, rest);
  }

  lemma {:induction false} EncodeDeploysAppend(ds: seq<DeployData>, d: DeployData)
    ensures EncodeDeploys(ds + [d]) == EncodeDeploys(ds) + EncodeDeploy(d)
  {
    hide EncodeDeploy;
    if ds == [] {
      assert [] + [d] == [d] && [d][1..] == [];
    } else {
      assert (ds + [d])[0] == ds[0] && (ds + [d])[1..] == ds[1..] + [d];
      EncodeDeploysAppend(ds[1..], d);
    }
  }

  ghost predicate Countable(ds: seq<DeployData>) {
    |ds| < U16_LIMIT && forall i :: 0 <= i < |ds| ==> |ds[i]| < U16_LIMIT
  }

  lemma {:induction false} DeploysRoundTrip(ds: seq<DeployData>, rest: seq<byte>)
    requires forall i :: 0 <= i < |ds| ==> |ds[i]| < U16_LIMIT
    ensures TakeDeploys(EncodeDeploys(ds) + rest, |ds|) == Some((ds, rest))
    decreases |ds|
  {
    hide EncodeDeploy, TakeDeploy;
    if ds != [] {
      var init, last := ds[..|ds| - 1], ds[|ds| - 1];
      assert ds == init + [last];
      EncodeDeploysAppend(init, last);
      assert EncodeDeploys(ds) + rest == EncodeDeploys(init) + (EncodeDeploy(last) + rest);
      DeploysRoundTrip(init, EncodeDeploy(last) + rest);
      DeployRoundTrip(last, rest);
    } else {
      assert [] + rest == rest;
    }
  }

  lemma {:induction false} TakenChannelsCount(bytes: seq<byte>, n: nat)
    ensures TakeChannels(bytes, n).Some? ==> |TakeChannels(bytes, n).value.0| == n
  {
    hide TakeChannel;
    if n > 0 { TakenChannelsCount(bytes, n - 1); }
  }

  /** What the decoder returns can always be counted in 16 bits. */
  lemma {:induction false} TakenDeploysCountable(bytes: seq<byte>, n: nat)
    ensures TakeDeploys(bytes, n).Some? ==>
              && |TakeDeploys(bytes, n).value.0| == n
              && forall i :: 0 <= i < n ==> |TakeDeploys(bytes, n).value.0[i]| < U16_LIMIT
  {
    hide TakeChannels;
    if n > 0 {
      TakenDeploysCountable(bytes, n - 1);
      if TakeDeploys(bytes, n).Some? {
        var rest := TakeDeploys(bytes, n - 1).value.1;
        TakenU16(rest);
        TakenChannelsCount(TakeU16(rest).value.1, TakeU16(rest).value.0);
      }
    }
  }

  lemma TakenU16(bytes: seq<byte>)
    ensures TakeU16(bytes).Some? ==> 0 <= TakeU16(bytes).value.0 < U16_LIMIT
  {
    if |bytes| >= 2 {
      assert Pow256(1) == 256 && Pow256(2) == U16_LIMIT;
      BigEndianBound(bytes[..2]);
    }
  }

  /** Decoding inverts encoding exactly on data whose counts fit 16 bits. */
  lemma DataRoundTripIff(ds: seq<DeployData>)
    ensures DecodeData(EncodeData(ds)) == Some(ds) <==> Countable(ds)
  {
    hide TakeDeploys, EncodeDeploys, TakeU16;
    var n := |ds| % U16_LIMIT;
    U16RoundTrip(n, EncodeDeploys(ds));
    TakenDeploysCountable(EncodeDeploys(ds), n);
    if Countable(ds) {
      DeploysRoundTrip(ds, []);
      assert EncodeDeploys(ds) + [] == EncodeDeploys(ds);
    }
  }

  // ----- the loops

  method EncodeDeployData(d: DeployData) returns (out: seq<byte>)
    ensures out == EncodeDeploy(d)
  {
    hide EncodeChannel;
    out := ToBE(|d| % U16_LIMIT, 2);
    for i := 0 to |d|
      invariant out == ToBE(|d| % U16_LIMIT, 2) + EncodeChannels(d[..i])
    {
      EncodeChannelsAppend(d[..i], d[i]);
      assert d[..i + 1] == d[..i] + [d[i]];
      out := out + EncodeChannel(d[i]);
    }
    assert d[..|d|] == d;
  }

  method EncodeDataSeq(ds: seq<DeployData>) returns (out: seq<byte>)
    ensures out == EncodeData(ds)
  {
    hide EncodeDeploy;
    out := ToBE(|ds| % U16_LIMIT, 2);
    for i := 0 to |ds|
      invariant out == ToBE(|ds| % U16_LIMIT, 2) + EncodeDeploys(ds[..i])
    {
      EncodeDeploysAppend(ds[..i], ds[i]);
      assert ds[..i + 1] == ds[..i] + [ds[i]];
      var part := EncodeDeployData(ds[i]);
      out := out + part;
    }
    assert ds[..|ds|] == ds;
  }

  /** Read the channels of one deploy from position `start`. */
  method ReadChannels(bytes: seq<byte>, start: nat, n: nat) returns (ok: bool, cs: seq<NumberChannel>, end: nat)
    requires start <= |bytes|
    ensures end <= |bytes|
    ensures TakeChannels(bytes[start..], n) == if ok then Some((cs, bytes[end..])) else None
  {
    hide TakeChannel;
    cs, end := [], start;
    for i := 0 to n
      invariant end <= |bytes| && TakeChannels(bytes[start..], i) == Some((cs, bytes[end..]))
    {
      TakeChannelAt(bytes, end);
      if end + 32 > |bytes| || end + 40 > |bytes| {
        NoMoreChannels(bytes[start..], i + 1, n);
        return false, cs, end;
      }
      cs, end := cs + [ChannelAt(bytes, end)], end + 40;
    }
    ok := true;
  }

  function ChannelAt(bytes: seq<byte>, at: nat): NumberChannel
    requires at + 40 <= |bytes|
  {
    BigEndianBound(bytes[at + 32..at + 40]);
    EightBytes();
    NumberChannel(bytes[at..at + 32], ToSigned(FromBE(bytes[at + 32..at + 40])))
  }

  lemma TakeChannelAt(bytes: seq<byte>, at: nat)
    requires at <= |bytes|
    ensures TakeChannel(bytes[at..]).Some? <==> at + 40 <= |bytes|
    ensures at + 40 <= |bytes| ==> TakeChannel(bytes[at..]) == Some((ChannelAt(bytes, at), bytes[at + 40..]))
  {
    if at + 40 <= |bytes| {
      assert bytes[at..][..32] == bytes[at..at + 32] && bytes[at..][32..40] == bytes[at + 32..at + 40];
      assert bytes[at..][40..] == bytes[at + 40..];
    }
  }

  lemma {:induction false} NoMoreChannels(bytes: seq<byte>, k: nat, n: nat)
    requires k <= n && TakeChannels(bytes, k).None?
    ensures TakeChannels(bytes, n).None?
  {
    hide TakeChannel;
    if k < n { NoMoreChannels(bytes, k, n - 1); }
  }

  lemma {:induction false} NoMoreDeploys(bytes: seq<byte>, k: nat, n: nat)
    requires k <= n && TakeDeploys(bytes, k).None?
    ensures TakeDeploys(bytes, n).None?
  {
    hide TakeDeploy;
    if k < n { NoMoreDeploys(bytes, k, n - 1); }
  }

  /** Read a 16-bit number at a position. */
  method ReadU16(bytes: seq<byte>, start: nat) returns (ok: bool, n: nat, end: nat)
    requires start <= |bytes|
    ensures end <= |bytes|
    ensures TakeU16(bytes[start..]) == if ok then Some((n, bytes[end..])) else None
  {
    if start + 2 > |bytes| { return false, 0, start; }
    assert bytes[start..][..2] == bytes[start..start + 2] && bytes[start..][2..] == bytes[start + 2..];
    ok, n, end := true, FromBE(bytes[start..start + 2]), start + 2;
  }

  method DecodeDataSeq(bytes: seq<byte>) returns (r: Option<seq<DeployData>>)
    ensures r == DecodeData(bytes)
  {
    hide TakeU16, TakeChannels;
    assert bytes[0..] == bytes;
    var ok, count, idx := ReadU16(bytes, 0);
    if !ok { return None; }
    ghost var body := bytes[idx..];
    var ds: seq<DeployData> := [];
    for i := 0 to count
      invariant 0 <= idx <= |bytes| && TakeDeploys(body, i) == Some((ds, bytes[idx..]))
    {
      var found, n, at := ReadU16(bytes, idx);
      if !found {
        NoMoreDeploys(body, i + 1, count);
        return None;
      }
      var complete, cs, end := ReadChannels(bytes, at, n);
      if !complete {
        NoMoreDeploys(body, i + 1, count);
        return None;
      }
      ds, idx := ds + [cs], end;
    }
    r := Some(ds);
  }
}
