/**
 * The text of a ledger member, `amount|processor|correlationId`, and how
 * the summary reads it back: split on '|' and parse the first field as a
 * number.
 *
 * Amounts are integer cents, written in decimal with a leading '-' when
 * negative. Reading an amount follows parseFloat on such text: an optional
 * sign, then the longest run of digits; no digits at all give NaN.
 */
module MemberCodec {
  import opened Types

  const SEPARATOR := '|'

  predicate IsDigit(c: char)
  {
    '0' <= c <= '9'
  }

  predicate AllDigits(s: string)
  {
    forall i :: 0 <= i < |s| ==> IsDigit(s[i])
  }

  function DigitChar(d: nat): (c: char)
    requires d < 10
    ensures IsDigit(c) && c as int - '0' as int == d
  {
    ('0' as int + d) as char
  }

  /** The decimal text of a natural number, without leading zeros. */
  function NatText(n: nat): (s: string)
    ensures |s| >= 1 && AllDigits(s)
    ensures SEPARATOR !in s
  {
    if n < 10 then [DigitChar(n)] else NatText(n / 10) + [DigitChar(n % 10)]
  }

  /** `${amount}` for an amount in cents. */
  function AmountText(amount: int): (s: string)
    ensures SEPARATOR !in s
  {
    if amount < 0 then "-" + NatText(-amount) else NatText(amount)
  }

  /** The number a run of decimal digits denotes. */
  function DigitsValue(s: string): nat
    requires AllDigits(s)
  {
    if s == [] then 0 else DigitsValue(s[..|s| - 1]) * 10 + (s[|s| - 1] as int - '0' as int)
  }

  /** The longest prefix of s made of digits. */
  function LeadingDigits(s: string): (r: string)
    ensures AllDigits(r) && r <= s
    ensures r == s || !IsDigit(s[|r|])
  {
    if s == [] || !IsDigit(s[0]) then [] else [s[0]] + LeadingDigits(s[1..])
  }

  /**
   * parseFloat on the text of an amount: NaN for text that does not start
   * with a sign or a digit, or has no digit after the sign; a non-negative
   * number after a digit or '+', a non-positive one after '-'.
   */
  function ParseAmount(s: string): (r: Num)
    ensures s == [] || (!IsDigit(s[0]) && s[0] != '-' && s[0] != '+') ==> r == NaN
    ensures |s| > 0 && IsDigit(s[0]) ==> r.Finite?
    ensures r.Finite? && s[0] != '-' ==> r.cents >= 0
    ensures r.Finite? && s[0] == '-' ==> r.cents <= 0
  {
    var negative := |s| > 0 && s[0] == '-';
    var unsigned := if |s| > 0 && (s[0] == '-' || s[0] == '+') then s[1..] else s;
    var digits := LeadingDigits(unsigned);
    if digits == [] then NaN
    else
      var magnitude: int := DigitsValue(digits);
      Finite(if negative then -magnitude else magnitude)
  }

  lemma {:induction false} NatTextValue(n: nat)
    ensures DigitsValue(NatText(n)) == n
  {
    if n >= 10 {
      var s := NatText(n);
      assert s[..|s| - 1] == NatText(n / 10);
      NatTextValue(n / 10);
    }
  }

  lemma {:induction false} LeadingDigitsOfDigits(s: string)
    requires AllDigits(s)
    ensures LeadingDigits(s) == s
  {
    if s != [] {
      LeadingDigitsOfDigits(s[1..]);
    }
  }

  /** Reading back the text of an amount gives the amount. */
  lemma AmountRoundTrip(amount: int)
    ensures ParseAmount(AmountText(amount)) == Finite(amount)
  {
    var n: nat := if amount < 0 then -amount else amount;
    var digits := NatText(n);
    LeadingDigitsOfDigits(digits);
    NatTextValue(n);
    if amount < 0 {
      assert AmountText(amount)[1..] == digits;
    }
  }

  /** `s.split("|")`: the fields between separators; there is always at least one. */
  function Split(s: string): (fields: seq<string>)
    ensures |fields| >= 1
    ensures |fields| > 1 <==> SEPARATOR in s
    ensures fields[0] <= s
  {
    if s == [] then [""]
    else
      var rest := Split(s[1..]);
      assert s == [s[0]] + s[1..];
      if s[0] == SEPARATOR then [""] + rest
      else [[s[0]] + rest[0]] + rest[1..]
  }

  /** No field of a split holds the separator. */
  lemma {:induction false} SplitFieldsFree(s: string)
    ensures forall i :: 0 <= i < |Split(s)| ==> SEPARATOR !in Split(s)[i]
  {
    if s != [] {
      SplitFieldsFree(s[1..]);
      var rest := Split(s[1..]);
      if s[0] != SEPARATOR {
        assert forall i :: 1 <= i < |rest| ==> rest[1..][i - 1] == rest[i];
      }
    }
  }

  lemma {:induction false} SplitWithoutSeparator(a: string)
    requires SEPARATOR !in a
    ensures Split(a) == [a]
  {
    if a != [] {
      SplitWithoutSeparator(a[1..]);
      assert a == [a[0]] + a[1..];
    }
  }

  lemma {:induction false} SplitAfterField(a: string, rest: string)
    requires SEPARATOR !in a
    ensures Split(a + [SEPARATOR] + rest) == [a] + Split(rest)
  {
    var s := a + [SEPARATOR] + rest;
    if a == [] {
      assert s == [SEPARATOR] + rest && s[1..] == rest;
    } else {
      assert s[1..] == a[1..] + [SEPARATOR] + rest;
      SplitAfterField(a[1..], rest);
      assert a == [a[0]] + a[1..];
    }
  }

  /** Neither processor label contains the separator. */
  lemma LabelWithoutSeparator(p: Processor)
    ensures SEPARATOR !in p.Label()
  {
    assert "default" == ['d', 'e', 'f', 'a', 'u', 'l', 't'];
    assert "fallback" == ['f', 'a', 'l', 'l', 'b', 'a', 'c', 'k'];
  }

  /** The member savePayment writes for a payment log. */
  function Encode(log: PaymentLog): (member: string)
    ensures AmountText(log.amount) + [SEPARATOR] <= member
    ensures |member| == |AmountText(log.amount)| + |log.processor| + |log.correlationId| + 2
    ensures member[|member| - |log.correlationId| - 1..] == [SEPARATOR] + log.correlationId
  {
    AmountText(log.amount) + [SEPARATOR] + log.processor + [SEPARATOR] + log.correlationId
  }

  /** What getSummary takes from a member: the parsed amount and the processor field, if any. */
  datatype MemberView = MemberView(amount: Num, processor: Option<string>)

  /**
   * The amount is parsed from the text before the first separator, and
   * the processor field is present exactly when the member holds a separator.
   */
  function Read(member: string): (view: MemberView)
    ensures view.processor.None? <==> SEPARATOR !in member
    ensures SEPARATOR !in member ==> view.amount == ParseAmount(member)
    ensures view.processor.Some? ==> SEPARATOR !in view.processor.value
  {
    var fields := Split(member);
    assert SEPARATOR !in member ==> fields == [member] by {
      if SEPARATOR !in member {
        SplitWithoutSeparator(member);
      }
    }
    assert |fields| > 1 ==> SEPARATOR !in fields[1] by {
      SplitFieldsFree(member);
    }
    MemberView(ParseAmount(fields[0]), if |fields| > 1 then Some(fields[1]) else None)
  }

  /**
   * The three fields of a member come back apart when neither the
   * processor label nor the correlation id contains the separator.
   */
  lemma SplitEncode(log: PaymentLog)
    requires SEPARATOR !in log.processor && SEPARATOR !in log.correlationId
    ensures Split(Encode(log)) == [AmountText(log.amount), log.processor, log.correlationId]
  {
    var a, p, c := AmountText(log.amount), log.processor, log.correlationId;
    assert Encode(log) == a + [SEPARATOR] + (p + [SEPARATOR] + c);
    SplitAfterField(a, p + [SEPARATOR] + c);
    SplitAfterField(p, c);
    SplitWithoutSeparator(c);
  }

  /**
   * Reading a stored member recovers the amount and the processor label
   * that were written, whatever the correlation id holds.
   */
  lemma ReadEncode(log: PaymentLog)
    requires SEPARATOR !in log.processor
    ensures Read(Encode(log)) == MemberView(Finite(log.amount), Some(log.processor))
  {
    var a, p, c := AmountText(log.amount), log.processor, log.correlationId;
    assert Encode(log) == a + [SEPARATOR] + (p + [SEPARATOR] + c);
    SplitAfterField(a, p + [SEPARATOR] + c);
    SplitAfterField(p, c);
    AmountRoundTrip(log.amount);
  }

  /**
   * Two logs share a member exactly when they agree on amount, processor
   * and correlation id; the timestamp is not part of the member.
   */
  lemma EncodeInjective(x: PaymentLog, y: PaymentLog)
    requires SEPARATOR !in x.processor && SEPARATOR !in y.processor
    ensures Encode(x) == Encode(y) <==>
              x.amount == y.amount && x.processor == y.processor && x.correlationId == y.correlationId
  {
    if Encode(x) == Encode(y) {
      ReadEncode(x);
      ReadEncode(y);
      var k := |AmountText(x.amount)| + |x.processor| + 2;
      assert Encode(x)[k..] == x.correlationId;
      assert Encode(y)[k..] == y.correlationId;
    }
  }
}
