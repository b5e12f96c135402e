/**
  Configuration records: the flat dictionaries that `get_config` produces and
  the factories consume. A record maps field names to primitive values; the
  field `canonical_name` names the concrete class to rebuild.
*/
module Config {
  import opened Wrappers

  /** A primitive field value. */
  datatype Value = Str(s: string) | Int(i: int)

  type Config = map<string, Value>

  /** The discriminator field of every configuration record. */
  const CanonicalNameKey: string := "canonical_name"

  /** The record without its discriminator: a copy of `c` with `canonical_name` deleted. */
  function Untagged(c: Config): (fields: Config)
    ensures fields.Keys == c.Keys - {CanonicalNameKey}
    ensures forall k :: k in fields ==> fields[k] == c[k]
  {
    c - {CanonicalNameKey}
  }

  /** A record of constructor fields with the discriminator `className` added. */
  function Tagged(className: string, fields: Config): (c: Config)
    requires CanonicalNameKey !in fields
    ensures c.Keys == fields.Keys + {CanonicalNameKey}
    ensures c[CanonicalNameKey] == Str(className)
    ensures Untagged(c) == fields
  {
    fields[CanonicalNameKey := Str(className)]
  }

  /** A record is determined by its discriminator and the fields that remain without it. */
  lemma TaggedUntagged(c: Config)
    requires CanonicalNameKey in c && c[CanonicalNameKey].Str?
    ensures Tagged(c[CanonicalNameKey].s, Untagged(c)) == c
  {
  }

  /** The decimal digit character for `d`. */
  function DigitChar(d: nat): (ch: char)
    requires d < 10
    ensures '0' <= ch <= '9'
    ensures ch == '0' <==> d == 0
  {
    "0123456789"[d]
  }

  /** The value of a decimal digit character. */
  function DigitValue(ch: char): (d: nat)
    requires '0' <= ch <= '9'
    ensures d < 10
  {
    ch as int - '0' as int
  }

  predicate IsDigits(s: string) {
    forall i :: 0 <= i < |s| ==> '0' <= s[i] <= '9'
  }

  /** A canonical decimal literal: digits without a leading zero, after a minus sign for a negative number. */
  predicate IsCanonicalDecimal(s: string) {
    || (|s| > 0 && IsDigits(s) && (|s| > 1 ==> s[0] != '0'))
    || (|s| > 1 && s[0] == '-' && IsDigits(s[1..]) && s[1] != '0')
  }

  /** Python's `str()` of a natural number: its decimal digits, most significant first. */
  function ShowNat(n: nat): (r: string)
    ensures |r| > 0 && IsDigits(r)
    ensures r[0] == '0' <==> n == 0
    decreases n
  {
    if n < 10 then [DigitChar(n)] else ShowNat(n / 10) + [DigitChar(n % 10)]
  }

  /** Python's `str()` of an integer: a minus sign for negative values, then the digits. */
  function ShowInt(i: int): (r: string)
    ensures IsCanonicalDecimal(r)
    ensures i >= 0 <==> r[0] != '-'
  {
    if i < 0 then "-" + ShowNat(-i) else ShowNat(i)
  }

  /** Python's `str()` of a field value, as an f-string renders it. */
  function Show(v: Value): (r: string)
    ensures v.Str? ==> r == v.s
    ensures v.Int? ==> IsCanonicalDecimal(r) && ParseInt(r) == Some(v.i)
  {
    match v
    case Str(s) => s
    case Int(i) => ParseShowInt(i); ShowInt(i)
  }

  /** The number a string of decimal digits denotes: the reference reading of `ShowNat`. */
  function ParseNat(s: string): (n: nat)
    requires IsDigits(s)
  {
    if s == [] then 0 else ParseNat(s[..|s| - 1]) * 10 + DigitValue(s[|s| - 1])
  }

  /** Python's `int()` of a decimal literal with an optional leading minus sign. */
  function ParseInt(s: string): (r: Option<int>) {
    if |s| > 1 && s[0] == '-' && IsDigits(s[1..]) then var n: int := ParseNat(s[1..]); Some(-n)
    else if |s| > 0 && IsDigits(s) then Some(ParseNat(s))
    else None
  }

  /** Reading back the digits of a natural number gives that number. */
  lemma {:induction false} ParseShowNat(n: nat)
    ensures ParseNat(ShowNat(n)) == n
    decreases n
  {
    if n >= 10 {
      var s := ShowNat(n);
      assert s[..|s| - 1] == ShowNat(n / 10);
      ParseShowNat(n / 10);
    }
  }

  /** Reading back the rendering of an integer gives that integer. */
  lemma ParseShowInt(i: int)
    ensures ParseInt(ShowInt(i)) == Some(i)
  {
    if i < 0 {
      var digits := ShowNat(-i);
      var s := "-" + digits;
      assert s[1..] == digits;
      ParseShowNat(-i);
      assert ParseInt(s) == Some(i);
    } else {
      var s := ShowNat(i);
      assert '0' <= s[0] <= '9';
      ParseShowNat(i);
      assert ParseInt(s) == Some(i);
    }
  }
}
