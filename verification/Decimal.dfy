/** Decimal text of integers, as printed into storage keys and tokens, and as read
    back by a base-10 parser. */
module Decimal {
  import opened Wrappers

  predicate IsDigit(c: char) {
    '0' <= c <= '9'
  }

  function Digit(d: nat): (c: char)
    requires d < 10
    ensures IsDigit(c) && c as int - '0' as int == d
  {
    (d + '0' as int) as char
  }

  function PrintNat(n: nat): string {
    if n < 10 then [Digit(n)] else PrintNat(n / 10) + [Digit(n % 10)]
  }

  function Print(i: int): string {
    if i < 0 then "-" + PrintNat(-i) else PrintNat(i)
  }

  predicate AllDigits(s: string) {
    forall i :: 0 <= i < |s| ==> IsDigit(s[i])
  }

  function DigitsValue(s: string): nat
    requires AllDigits(s)
  {
    if s == [] then 0
    else 10 * DigitsValue(s[..|s| - 1]) + (s[|s| - 1] as int - '0' as int)
  }

  /** An optional sign followed by at least one digit, and nothing else. */
  function Parse(s: string): Option<int> {
    var signed := s != [] && s[0] in {'-', '+'};
    var digits := if signed then s[1..] else s;
    if digits == [] || !AllDigits(digits) then None
    else
      var magnitude: int := DigitsValue(digits);
      Some(if signed && s[0] == '-' then -magnitude else magnitude)
  }

  lemma {:induction false} PrintNatDigits(n: nat)
    ensures |PrintNat(n)| > 0 && AllDigits(PrintNat(n))
    ensures DigitsValue(PrintNat(n)) == n
  {
    if n < 10 {
      assert PrintNat(n) == [Digit(n)];
      assert PrintNat(n)[..0] == [];
    } else {
      PrintNatDigits(n / 10);
      var s := PrintNat(n);
      assert s[..|s| - 1] == PrintNat(n / 10) && s[|s| - 1] == Digit(n % 10);
    }
  }

  /** Reading back what was printed, for every integer. */
  lemma ParsePrint(i: int)
    ensures Parse(Print(i)) == Some(i)
  {
    var digits := PrintNat(if i < 0 then -i else i);
    PrintNatDigits(if i < 0 then -i else i);
    if i < 0 {
      assert Print(i)[0] == '-' && Print(i)[1..] == digits;
    } else {
      assert IsDigit(digits[0]) && digits[0] !in {'-', '+'};
    }
  }

  lemma PrintInjective(i: int, j: int)
    requires Print(i) == Print(j)
    ensures i == j
  {
    ParsePrint(i);
    ParsePrint(j);
  }

  /** Only digits and a minus sign are ever printed. */
  lemma PrintCharacters(i: int)
    ensures forall k :: 0 <= k < |Print(i)| ==> IsDigit(Print(i)[k]) || Print(i)[k] == '-'
  {
    PrintNatDigits(if i < 0 then -i else i);
  }

  /** A separator that occurs in neither left part splits a string in one way only. */
  lemma SplitUnique(a: string, b: string, c: string, d: string, sep: char)
    requires a + [sep] + b == c + [sep] + d
    requires sep !in a && sep !in c
    ensures a == c && b == d
  {
    var s := a + [sep] + b;
    assert s[|a|] == sep && s[|c|] == sep;
    assert forall i :: 0 <= i < |a| ==> s[i] == a[i];
    assert forall i :: 0 <= i < |c| ==> s[i] == c[i];
    assert |a| == |c|;
    assert a == s[..|a|] && c == s[..|c|];
    assert b == s[|a| + 1..] && d == s[|c| + 1..];
  }

  // ---------------------------------------------------------------------------
  // Storage keys

  /** Key of a pending claim. */
  function PaymentID(channelID: int, channelNonce: int): string {
    Print(channelID) + "/" + Print(channelNonce)
  }

  /** Key of a channel record, and name of its lock. */
  function ChannelKey(id: int): string {
    "{ID: " + Print(id) + "}"
  }

  /** Key of a prepaid counter. */
  function PrepaidKey(channelID: int, usageType: string): string {
    "{ID:" + Print(channelID) + "/" + usageType + "}"
  }

  lemma PaymentIDInjective(id: int, nonce: int, id': int, nonce': int)
    ensures PaymentID(id, nonce) == PaymentID(id', nonce') <==> id == id' && nonce == nonce'
  {
    if PaymentID(id, nonce) == PaymentID(id', nonce') {
      PrintCharacters(id);
      PrintCharacters(id');
      SplitUnique(Print(id), Print(nonce), Print(id'), Print(nonce'), '/');
      PrintInjective(id, id');
      PrintInjective(nonce, nonce');
    }
  }

  lemma ChannelKeyInjective(id: int, id': int)
    ensures ChannelKey(id) == ChannelKey(id') <==> id == id'
  {
    if ChannelKey(id) == ChannelKey(id') {
      var k, k' := ChannelKey(id), ChannelKey(id');
      assert Print(id) == k[5..|k| - 1] && Print(id') == k'[5..|k'| - 1];
      PrintInjective(id, id');
    }
  }

  lemma PrepaidKeyInjective(id: int, u: string, id': int, u': string)
    ensures PrepaidKey(id, u) == PrepaidKey(id', u') <==> id == id' && u == u'
  {
    if PrepaidKey(id, u) == PrepaidKey(id', u') {
      PrepaidKeyInside(id, u);
      PrepaidKeyInside(id', u');
      PrintCharacters(id);
      PrintCharacters(id');
      SplitUnique(Print(id), u, Print(id'), u', '/');
      PrintInjective(id, id');
    }
  }

  lemma PrepaidKeyInside(id: int, u: string)
    ensures |PrepaidKey(id, u)| > 4
    ensures PrepaidKey(id, u)[4..|PrepaidKey(id, u)| - 1] == Print(id) + "/" + u
  {
  }
}
