/** Byte layouts that clients and providers sign, and the free-call token. */
module Encoding {
  import opened Wrappers
  import opened Decimal

  type byte = x: int | 0 <= x < 256

  /** 256 to the k. */
  function Pow256(k: nat): (r: nat)
    ensures r > 0
  {
    if k == 0 then 1 else 256 * Pow256(k - 1)
  }

  /** The last len bytes of n, most significant first. */
  function BigEndian(n: nat, len: nat): (r: seq<byte>)
    ensures |r| == len
  {
    if len == 0 then [] else BigEndian(n / 256, len - 1) + [n % 256]
  }

  /** bytesToBigInt */
  function BytesToInt(b: seq<byte>): nat {
    if b == [] then 0 else 256 * BytesToInt(b[..|b| - 1]) + b[|b| - 1]
  }

  function Abs(i: int): nat {
    if i < 0 then -i else i
  }

  /** bigIntToBytes: the magnitude, cut to its last 32 bytes; the sign is dropped. */
  function IntToBytes(value: int): (r: seq<byte>)
    ensures |r| == 32
  {
    BigEndian(Abs(value), 32)
  }

  /** U256Bytes: two's complement in 32 bytes. */
  function U256Bytes(value: int): (r: seq<byte>)
    ensures |r| == 32
  {
    BigEndian(value % Pow256(32), 32)
  }

  function Ascii(s: string): (r: seq<byte>)
    ensures |r| == |s|
  {
    seq(|s|, i requires 0 <= i < |s| => s[i] as int % 256)
  }

  function Text(b: seq<byte>): (s: string)
    ensures |s| == |b|
  {
    seq(|b|, i requires 0 <= i < |b| => (b[i] as int) as char)
  }

  lemma DivideModulo(n: nat, m: nat)
    requires m > 0
    ensures 256 * ((n / 256) % m) + n % 256 == n % (256 * m)
  {
    var q, r := n / 256, n % 256;
    var a, b := q / m, q % m;
    assert n == 256 * (a * m + b) + r == (256 * m) * a + (256 * b + r);
    assert b <= m - 1;
    assert 0 <= 256 * b + r < 256 * m;
    RemainderUnique(n, 256 * m, a, 256 * b + r);
  }

  lemma MulAtLeast(d: nat, a: int, b: int)
    requires a < b
    ensures d * b >= d * a + d
  {
    assert d * (b - a) == d * b - d * a;
    assert d * (b - a - 1) >= 0;
  }

  lemma RemainderUnique(n: int, d: nat, q: int, r: nat)
    requires 0 < d && n == d * q + r && r < d
    ensures n % d == r
  {
    var q', r' := n / d, n % d;
    if q < q' {
      MulAtLeast(d, q, q');
      assert false;
    } else if q' < q {
      MulAtLeast(d, q', q);
      assert false;
    }
  }

  lemma {:induction false} BytesRoundTrip(n: nat, len: nat)
    ensures BytesToInt(BigEndian(n, len)) == n % Pow256(len)
  {
    if len > 0 {
      var b := BigEndian(n, len);
      assert b[..|b| - 1] == BigEndian(n / 256, len - 1);
      BytesRoundTrip(n / 256, len - 1);
      DivideModulo(n, Pow256(len - 1));
    }
  }

  lemma {:induction false} BigEndianDependsOnResidue(n: nat, m: nat, len: nat)
    ensures BigEndian(n, len) == BigEndian(m, len) <==> n % Pow256(len) == m % Pow256(len)
  {
    BytesRoundTrip(n, len);
    BytesRoundTrip(m, len);
    if n % Pow256(len) == m % Pow256(len) && len > 0 {
      DivideModulo(n, Pow256(len - 1));
      DivideModulo(m, Pow256(len - 1));
      BigEndianDependsOnResidue(n / 256, m / 256, len - 1);
    }
  }

  lemma RoundTripAt(value: int, len: nat)
    ensures BytesToInt(BigEndian(Abs(value), len)) == value <==> 0 <= value < Pow256(len)
  {
    BytesRoundTrip(Abs(value), len);
    if 0 <= value < Pow256(len) {
      RemainderUnique(value, Pow256(len), 0, value);
    }
  }

  /** bytesToBigInt undoes bigIntToBytes exactly on [0, 2^256). */
  lemma IntBytesRoundTrip(value: int)
    ensures BytesToInt(IntToBytes(value)) == value <==> 0 <= value < Pow256(32)
  {
    RoundTripAt(value, 32);
  }

  /** What a 32-byte field still tells about the number put into it. */
  function Field(value: int): nat {
    Abs(value) % Pow256(32)
  }

  lemma IntToBytesIff(a: int, b: int)
    ensures IntToBytes(a) == IntToBytes(b) <==> Field(a) == Field(b)
  {
    BigEndianDependsOnResidue(Abs(a), Abs(b), 32);
  }

  lemma ReducedBigEndianIff(a: int, b: int, len: nat)
    ensures BigEndian(a % Pow256(len), len) == BigEndian(b % Pow256(len), len)
       <==> a % Pow256(len) == b % Pow256(len)
  {
    var m := Pow256(len);
    BigEndianDependsOnResidue(a % m, b % m, len);
    RemainderUnique(a % m, m, 0, a % m);
    RemainderUnique(b % m, m, 0, b % m);
  }

  lemma U256BytesIff(a: int, b: int)
    ensures U256Bytes(a) == U256Bytes(b) <==> a % Pow256(32) == b % Pow256(32)
  {
    ReducedBigEndianIff(a, b, 32);
  }

  // ---------------------------------------------------------------------------
  // The payment message a channel signer signs

  type Address = a: seq<byte> | |a| == 20 witness seq(20, _ => 0)

  const CLAIM_PREFIX := "__MPE_claim_message"

  function PaymentMessage(mpe: Address, channelID: int, nonce: int, amount: int): seq<byte> {
    Ascii(CLAIM_PREFIX) + mpe + IntToBytes(channelID) + IntToBytes(nonce) + IntToBytes(amount)
  }

  lemma ConcatEqual(a: seq<byte>, b: seq<byte>, c: seq<byte>, d: seq<byte>)
    requires |a| == |c|
    ensures a + b == c + d <==> a == c && b == d
  {
    assert (a + b)[..|a|] == a && (a + b)[|a|..] == b;
    assert (c + d)[..|c|] == c && (c + d)[|c|..] == d;
  }

  /** Two payments are signed by the same message exactly when all their fields agree;
      for fields in [0, 2^256) that means they are equal. */
  lemma PaymentMessageIff(mpe: Address, id: int, nonce: int, amount: int,
                          mpe': Address, id': int, nonce': int, amount': int)
    ensures PaymentMessage(mpe, id, nonce, amount) == PaymentMessage(mpe', id', nonce', amount')
       <==> mpe == mpe' && Field(id) == Field(id') && Field(nonce) == Field(nonce') && Field(amount) == Field(amount')
  {
    var p := Ascii(CLAIM_PREFIX);
    ConcatEqual(p + mpe + IntToBytes(id) + IntToBytes(nonce), IntToBytes(amount),
                p + mpe' + IntToBytes(id') + IntToBytes(nonce'), IntToBytes(amount'));
    ConcatEqual(p + mpe + IntToBytes(id), IntToBytes(nonce), p + mpe' + IntToBytes(id'), IntToBytes(nonce'));
    ConcatEqual(p + mpe, IntToBytes(id), p + mpe', IntToBytes(id'));
    ConcatEqual(p, mpe, p, mpe');
    IntToBytesIff(id, id');
    IntToBytesIff(nonce, nonce');
    IntToBytesIff(amount, amount');
  }

  lemma WordIs(value: int)
    ensures BytesToInt(IntToBytes(value)) == Field(value)
  {
    BytesRoundTrip(Abs(value), 32);
  }

  /** What stands where in a payment message: the text, the contract, and then channel,
      nonce and amount as 32-byte words. */
  lemma PaymentMessageLayout(mpe: Address, id: int, nonce: int, amount: int)
    ensures
      var m := PaymentMessage(mpe, id, nonce, amount);
      && |m| == 135 && m[..19] == Ascii("__MPE_claim_message") && m[19..39] == mpe
      && BytesToInt(m[39..71]) == Field(id) && BytesToInt(m[71..103]) == Field(nonce)
      && BytesToInt(m[103..135]) == Field(amount)
  {
    var m := PaymentMessage(mpe, id, nonce, amount);
    assert m[..19] == Ascii(CLAIM_PREFIX) && m[19..39] == mpe;
    assert m[39..71] == IntToBytes(id) && m[71..103] == IntToBytes(nonce) && m[103..135] == IntToBytes(amount);
    WordIs(id);
    WordIs(nonce);
    WordIs(amount);
  }

  // ---------------------------------------------------------------------------
  // The message for claiming several channels at once

  const TWO63: int := 0x8000_0000_0000_0000
  const TWO64: int := 0x1_0000_0000_0000_0000

  type uint64 = x: int | 0 <= x < TWO64

  /** Go's conversion of an unsigned to a signed 64-bit number. */
  function ToInt64(u: uint64): int {
    if u < TWO63 then u else u - TWO64
  }

  predicate Sorted(s: seq<uint64>) {
    forall i, j :: 0 <= i < j < |s| ==> s[i] <= s[j]
  }

  /** In-place sort of the copied id slice. */
  method SortIds(a: array<uint64>)
    modifies a
    ensures Sorted(a[..])
    ensures multiset(a[..]) == multiset(old(a[..]))
  {
    var i := 0;
    while i < a.Length
      invariant 0 <= i <= a.Length
      invariant Sorted(a[..i])
      invariant multiset(a[..]) == multiset(old(a[..]))
    {
      Sink(a, i);
      assert a[..i + 1] == a[..][..i + 1];
      i := i + 1;
    }
    assert a[..] == a[..i];
  }

  method Swap(a: array<uint64>, i: nat, j: nat)
    requires i < j < a.Length
    modifies a
    ensures a[..] == old(a[..])[i := old(a[j])][j := old(a[i])]
    ensures multiset(a[..]) == multiset(old(a[..]))
  {
    a[i], a[j] := a[j], a[i];
  }

  /** Moves the element at n down to its place among the sorted elements before it. */
  method Sink(a: array<uint64>, n: nat)
    requires n < a.Length && Sorted(a[..n])
    modifies a
    ensures Sorted(a[..n + 1])
    ensures multiset(a[..]) == multiset(old(a[..]))
  {
    var j := n;
    while j > 0 && a[j] < a[j - 1]
      invariant 0 <= j <= n
      invariant forall x, y :: 0 <= x < y <= n && y != j ==> a[x] <= a[y]
      invariant multiset(a[..]) == multiset(old(a[..]))
    {
      Swap(a, j - 1, j);
      j := j - 1;
    }
  }

  function IdsBytes(ids: seq<uint64>): (r: seq<byte>)
    ensures |r| == 32 * |ids|
  {
    if ids == [] then [] else IdsBytes(ids[..|ids| - 1]) + IntToBytes(ToInt64(ids[|ids| - 1]))
  }

  /** getBytesOfChannelIds: the caller's list is copied, the copy is sorted, and the
      ids are joined as 32-byte words. */
  method BytesOfChannelIds(ids: seq<uint64>) returns (r: seq<byte>)
    ensures exists sorted :: IsSortOf(sorted, ids) && r == IdsBytes(sorted)
    ensures forall sorted :: IsSortOf(sorted, ids) ==> r == IdsBytes(sorted)
  {
    var a := new uint64[|ids|](i requires 0 <= i < |ids| => ids[i]);
    assert a[..] == ids;
    SortIds(a);
    ghost var sorted := a[..];
    r := [];
    for i := 0 to a.Length
      invariant a[..] == sorted
      invariant r == IdsBytes(sorted[..i])
    {
      ghost var step := sorted[..i + 1];
      assert step[..|step| - 1] == sorted[..i];
      r := r + IntToBytes(ToInt64(a[i]));
    }
    assert sorted[..|sorted|] == sorted;
    assert IsSortOf(sorted, ids);
    forall other | IsSortOf(other, ids) ensures other == sorted {
      SortedUnique(other, sorted);
    }
  }

  ghost predicate IsSortOf(sorted: seq<uint64>, ids: seq<uint64>) {
    Sorted(sorted) && multiset(sorted) == multiset(ids)
  }

  lemma SameLength(a: seq<uint64>, b: seq<uint64>)
    requires multiset(a) == multiset(b)
    ensures |a| == |b|
  {
    assert |multiset(a)| == |a| && |multiset(b)| == |b|;
  }

  lemma SameLast(a: seq<uint64>, b: seq<uint64>)
    requires a != [] && b != [] && Sorted(a) && Sorted(b) && multiset(a) == multiset(b)
    ensures a[|a| - 1] == b[|b| - 1]
  {
    var x, y := a[|a| - 1], b[|b| - 1];
    assert x in multiset(a) && y in multiset(b);
    assert x in b && y in a;
  }

  lemma WithoutLast(a: seq<uint64>)
    requires a != []
    ensures multiset(a[..|a| - 1]) == multiset(a) - multiset{a[|a| - 1]}
  {
    assert a == a[..|a| - 1] + [a[|a| - 1]];
  }

  lemma {:induction false} SortedUnique(a: seq<uint64>, b: seq<uint64>)
    requires Sorted(a) && Sorted(b) && multiset(a) == multiset(b)
    ensures a == b
    decreases |a|
  {
    SameLength(a, b);
    if a != [] {
      SameLast(a, b);
      WithoutLast(a);
      WithoutLast(b);
      var a', b' := a[..|a| - 1], b[..|b| - 1];
      SortedUnique(a', b');
      assert a == a' + [a[|a| - 1]] && b == b' + [b[|b| - 1]];
    }
  }

  /** The encoded list does not depend on the order in which the ids were given. */
  lemma EncodingIgnoresOrder(a: seq<uint64>, b: seq<uint64>, sa: seq<uint64>, sb: seq<uint64>)
    requires IsSortOf(sa, a) && IsSortOf(sb, b)
    requires multiset(a) == multiset(b)
    ensures IdsBytes(sa) == IdsBytes(sb)
  {
    SortedUnique(sa, sb);
  }

  /** Ids of 2^63 and more become negative and lose their sign. */
  function FoldId(u: uint64): nat {
    if u < TWO63 then u else TWO64 - u
  }

  lemma FoldedField(u: uint64)
    ensures Field(ToInt64(u)) == FoldId(u)
  {
    Pow256Large();
    RemainderUnique(FoldId(u), Pow256(32), 0, FoldId(u));
  }

  lemma Pow256Large()
    ensures Pow256(32) > TWO64
  {
    assert Pow256(8) == 0x1_0000_0000_0000_0000 by {
      assert Pow256(1) == 256 && Pow256(2) == 0x1_0000 && Pow256(3) == 0x100_0000 && Pow256(4) == 0x1_0000_0000;
      assert Pow256(5) == 0x100_0000_0000 && Pow256(6) == 0x1_0000_0000_0000 && Pow256(7) == 0x100_0000_0000_0000;
    }
    Pow256Above(8, 24);
  }

  lemma {:induction false} Pow256Above(k: nat, more: nat)
    ensures Pow256(k + more) >= Pow256(k)
    ensures more > 0 ==> Pow256(k + more) > Pow256(k)
  {
    if more > 0 {
      Pow256Above(k, more - 1);
    }
  }

  predicate SameFolds(a: seq<uint64>, b: seq<uint64>) {
    |a| == |b| && forall i :: 0 <= i < |a| ==> FoldId(a[i]) == FoldId(b[i])
  }

  lemma {:induction false} IdsBytesIff(a: seq<uint64>, b: seq<uint64>)
    ensures IdsBytes(a) == IdsBytes(b) <==> SameFolds(a, b)
    decreases |a|
  {
    if |a| == |b| && a != [] {
      var n := |a| - 1;
      ConcatEqual(IdsBytes(a[..n]), IntToBytes(ToInt64(a[n])), IdsBytes(b[..n]), IntToBytes(ToInt64(b[n])));
      IntToBytesIff(ToInt64(a[n]), ToInt64(b[n]));
      FoldedField(a[n]);
      FoldedField(b[n]);
      IdsBytesIff(a[..n], b[..n]);
      if SameFolds(a, b) {
        assert SameFolds(a[..n], b[..n]);
      }
      if SameFolds(a[..n], b[..n]) && FoldId(a[n]) == FoldId(b[n]) {
        forall i | 0 <= i < |a| ensures FoldId(a[i]) == FoldId(b[i]) {
          if i < n { assert a[..n][i] == a[i] && b[..n][i] == b[i]; }
        }
      }
    }
  }

  const MULTI_PREFIX := "__StartClaimForMultipleChannels_"

  function MultiClaimMessage(mpe: Address, sortedIds: seq<uint64>, block: uint64): seq<byte> {
    Ascii(MULTI_PREFIX) + mpe + IdsBytes(sortedIds) + U256Bytes(ToInt64(block))
  }

  /** The i-th word of the encoded list is the i-th id. */
  lemma {:induction false} IdWordIs(ids: seq<uint64>, i: nat)
    requires i < |ids|
    ensures BytesToInt(IdsBytes(ids)[32 * i..32 * i + 32]) == FoldId(ids[i])
  {
    var n := |ids| - 1;
    var front := IdsBytes(ids[..n]);
    if i == n {
      assert IdsBytes(ids)[32 * n..32 * n + 32] == IntToBytes(ToInt64(ids[n]));
      WordIs(ToInt64(ids[n]));
      FoldedField(ids[n]);
    } else {
      IdWordIs(ids[..n], i);
      assert IdsBytes(ids)[32 * i..32 * i + 32] == front[32 * i..32 * i + 32];
    }
  }

  /** What stands where in the message: the text, the contract, the ids as 32-byte words in
      the order given, and the block number as the last word. */
  lemma MultiClaimMessageLayout(mpe: Address, ids: seq<uint64>, block: uint64, i: nat)
    requires i < |ids|
    ensures
      var m, n := MultiClaimMessage(mpe, ids, block), 52 + 32 * |ids|;
      && |m| == n + 32 && m[..32] == Ascii("__StartClaimForMultipleChannels_") && m[32..52] == mpe
      && BytesToInt(m[52 + 32 * i..84 + 32 * i]) == FoldId(ids[i])
      && BytesToInt(m[n..]) == ToInt64(block) % Pow256(32)
  {
    var m, n := MultiClaimMessage(mpe, ids, block), 52 + 32 * |ids|;
    MultiClaimMessageParts(mpe, ids, block);
    SliceOfSlice(m, 52, n, 32 * i, 32 * i + 32);
    IdWordIs(ids, i);
    U256WordIs(ToInt64(block));
  }

  lemma MultiClaimMessageParts(mpe: Address, ids: seq<uint64>, block: uint64)
    ensures
      var m, n := MultiClaimMessage(mpe, ids, block), 52 + 32 * |ids|;
      && |m| == n + 32 && m[..32] == Ascii("__StartClaimForMultipleChannels_") && m[32..52] == mpe
      && m[52..n] == IdsBytes(ids) && m[n..] == U256Bytes(ToInt64(block))
  {
  }

  lemma SliceOfSlice(m: seq<byte>, lo: nat, hi: nat, a: nat, b: nat)
    requires a <= b && lo + b <= hi <= |m|
    ensures m[lo..hi][a..b] == m[lo + a..lo + b]
  {
    assert forall i :: 0 <= i < b - a ==> m[lo..hi][a..b][i] == m[lo..hi][a + i] == m[lo + a + i];
  }

  lemma U256WordIs(value: int)
    ensures BytesToInt(U256Bytes(value)) == value % Pow256(32)
  {
    var r := value % Pow256(32);
    BytesRoundTrip(r, 32);
    RemainderUnique(r, Pow256(32), 0, r);
  }

  lemma BlockBytesIff(a: uint64, b: uint64)
    ensures U256Bytes(ToInt64(a)) == U256Bytes(ToInt64(b)) <==> a == b
  {
    U256BytesIff(ToInt64(a), ToInt64(b));
    Pow256Large();
    ResiduesIff(ToInt64(a), ToInt64(b), Pow256(32));
  }

  lemma ResiduesIff(x: int, y: int, m: nat)
    requires -TWO63 <= x < TWO63 && -TWO63 <= y < TWO63 && m > TWO64
    ensures x % m == y % m <==> x == y
  {
    Residue(x, m);
    Residue(y, m);
  }

  lemma Residue(x: int, m: nat)
    requires -TWO63 <= x < TWO63 && m > TWO64
    ensures x % m == if x < 0 then x + m else x
  {
    if x < 0 {
      RemainderUnique(x, m, -1, x + m);
    } else {
      RemainderUnique(x, m, 0, x);
    }
  }

  /** Two multi-channel requests to one contract carry the same message exactly when
      their folded ids and their block numbers agree, for all 64-bit inputs. */
  lemma MultiClaimMessageIff(mpe: Address, a: seq<uint64>, block: uint64, b: seq<uint64>, block': uint64)
    ensures MultiClaimMessage(mpe, a, block) == MultiClaimMessage(mpe, b, block')
       <==> SameFolds(a, b) && block == block'
  {
    var p := Ascii(MULTI_PREFIX) + mpe;
    if |a| == |b| {
      ConcatEqual(p + IdsBytes(a), U256Bytes(ToInt64(block)), p + IdsBytes(b), U256Bytes(ToInt64(block')));
      ConcatEqual(p, IdsBytes(a), p, IdsBytes(b));
      IdsBytesIff(a, b);
      BlockBytesIff(block, block');
    } else {
      assert |MultiClaimMessage(mpe, a, block)| != |MultiClaimMessage(mpe, b, block')|;
    }
  }

  /** Below 2^63 the signature binds the request to its multiset of channels. */
  lemma SmallIdsAreBound(mpe: Address, a: seq<uint64>, block: uint64, b: seq<uint64>, block': uint64,
                         sa: seq<uint64>, sb: seq<uint64>)
    requires IsSortOf(sa, a) && IsSortOf(sb, b)
    requires forall i :: 0 <= i < |a| ==> a[i] < TWO63
    requires forall i :: 0 <= i < |b| ==> b[i] < TWO63
    ensures MultiClaimMessage(mpe, sa, block) == MultiClaimMessage(mpe, sb, block')
       <==> multiset(a) == multiset(b) && block == block'
  {
    MultiClaimMessageIff(mpe, sa, block, sb, block');
    forall i | 0 <= i < |sa| ensures sa[i] < TWO63 {
      assert sa[i] in multiset(sa) && sa[i] in multiset(a);
    }
    forall i | 0 <= i < |sb| ensures sb[i] < TWO63 {
      assert sb[i] in multiset(sb) && sb[i] in multiset(b);
    }
    if SameFolds(sa, sb) {
      forall i | 0 <= i < |sa| ensures sa[i] == sb[i] {
        assert FoldId(sa[i]) == FoldId(sb[i]);
      }
      assert sa == sb;
    }
    if multiset(a) == multiset(b) {
      SortedUnique(sa, sb);
    }
  }

  /** From 2^63 on it does not: id 1 and id 2^64 - 1 are signed alike. */
  lemma LargeIdsCollide(mpe: Address, block: uint64)
    ensures MultiClaimMessage(mpe, [1], block) == MultiClaimMessage(mpe, [TWO64 - 1], block)
  {
    assert SameFolds([1], [TWO64 - 1]);
    MultiClaimMessageIff(mpe, [1], block, [TWO64 - 1], block);
  }

  // ---------------------------------------------------------------------------
  // Free-call tokens

  const TOKEN_LIFETIME := 172800

  function TokenDeadline(latestBlock: int, lifetime: Option<uint64>): int {
    latestBlock + if lifetime.Some? && lifetime.value <= TOKEN_LIFETIME then lifetime.value else TOKEN_LIFETIME
  }

  /** Signature, separator, decimal deadline. */
  function FreeCallToken(signature: seq<byte>, deadline: int): seq<byte> {
    signature + Ascii("_" + Print(deadline))
  }

  function LastIndex(b: seq<byte>, x: byte): (r: int)
    ensures -1 <= r < |b|
    ensures r >= 0 ==> b[r] == x
    ensures forall i :: r < i < |b| ==> b[i] != x
  {
    if b == [] then -1
    else if b[|b| - 1] == x then |b| - 1
    else LastIndex(b[..|b| - 1], x)
  }

  datatype TokenResult = NoSeparator | InvalidBlock | Parsed(signature: seq<byte>, block: int)

  function ParseFreeCallToken(token: seq<byte>): TokenResult {
    var i := LastIndex(token, '_' as int);
    if i == -1 then NoSeparator
    else
      var block := Parse(Text(token[i + 1..]));
      if block.None? then InvalidBlock else Parsed(token[..i], block.value)
  }

  lemma TextAscii(s: string)
    requires forall i :: 0 <= i < |s| ==> s[i] as int < 256
    ensures Text(Ascii(s)) == s
  {
    assert forall i :: 0 <= i < |s| ==> Text(Ascii(s))[i] == s[i];
  }

  lemma LastIndexIs(b: seq<byte>, x: byte, i: nat)
    requires i < |b| && b[i] == x && forall k :: i < k < |b| ==> b[k] != x
    ensures LastIndex(b, x) == i
  {
  }

  lemma NoSeparatorInDigits(i: int)
    ensures forall k :: 0 <= k < |Print(i)| ==> Print(i)[k] as int < 128 && Print(i)[k] != '_'
  {
    PrintCharacters(i);
  }

  lemma TokenParts(signature: seq<byte>, digits: string)
    requires forall k :: 0 <= k < |digits| ==> digits[k] as int < 128 && digits[k] != '_'
    ensures
      var token := signature + Ascii("_" + digits);
      && LastIndex(token, '_' as int) == |signature|
      && token[..|signature|] == signature && token[|signature| + 1..] == Ascii(digits)
  {
    var tail := Ascii("_" + digits);
    var token := signature + tail;
    assert tail[0] == '_' as int && tail[1..] == Ascii(digits);
    assert forall k :: |signature| < k < |token| ==> token[k] == Ascii(digits)[k - |signature| - 1];
    LastIndexIs(token, '_' as int, |signature|);
    assert token[|signature| + 1..] == tail[1..];
  }

  /** Every token parses back to its own signature and deadline, whatever bytes the
      signature holds. */
  lemma TokenRoundTrip(signature: seq<byte>, deadline: int)
    ensures ParseFreeCallToken(FreeCallToken(signature, deadline)) == Parsed(signature, deadline)
  {
    NoSeparatorInDigits(deadline);
    TokenParts(signature, Print(deadline));
    TextAscii(Print(deadline));
    ParsePrint(deadline);
  }

  /** NewFreeCallToken, with the signing key as a function of the deadline it signs. */
  function NewFreeCallToken(sign: int -> seq<byte>, latestBlock: int, lifetime: Option<uint64>): (seq<byte>, int) {
    var deadline := TokenDeadline(latestBlock, lifetime);
    (FreeCallToken(sign(deadline), deadline), deadline)
  }

  /** An issued token is read back as issued, and never outlives the fixed lifetime. */
  lemma IssuedTokenParses(sign: int -> seq<byte>, latestBlock: int, lifetime: Option<uint64>)
    ensures
      var (token, deadline) := NewFreeCallToken(sign, latestBlock, lifetime);
      && ParseFreeCallToken(token) == Parsed(sign(deadline), deadline)
      && latestBlock <= deadline <= latestBlock + 172800
      && (lifetime.Some? && lifetime.value <= 172800 ==> deadline == latestBlock + lifetime.value)
      && (lifetime.None? || lifetime.value > 172800 ==> deadline == latestBlock + 172800)
  {
    var deadline := TokenDeadline(latestBlock, lifetime);
    TokenRoundTrip(sign(deadline), deadline);
  }
}
