/** Decimal text, as `strconv.Itoa` and `strconv.Atoi` write and read it on 64-bit integers. */
module Text {
  const MAX_INT64: int := 0x7FFF_FFFF_FFFF_FFFF
  const MIN_INT64: int := -MAX_INT64 - 1

  /** Two's complement wrap-around of Go's `int`. */
  function Wrap64(n: int): (r: int)
    ensures MIN_INT64 <= r <= MAX_INT64
    ensures MIN_INT64 <= n <= MAX_INT64 ==> r == n
  {
    (n - MIN_INT64) % 0x1_0000_0000_0000_0000 + MIN_INT64
  }

  predicate AllDigits(s: string) {
    forall i :: 0 <= i < |s| ==> '0' <= s[i] <= '9'
  }

  function DigitChar(d: nat): char
    requires d < 10
  {
    (('0' as int) + d) as char
  }

  function Decimal(n: nat): (s: string)
    ensures s != [] && AllDigits(s)
  {
    if n < 10 then [DigitChar(n)] else Decimal(n / 10) + [DigitChar(n % 10)]
  }

  function Value(s: string): nat
    requires AllDigits(s)
  {
    if s == [] then 0 else Value(s[..|s| - 1]) * 10 + (s[|s| - 1] as int - '0' as int)
  }

  function Itoa(n: int): (s: string)
    ensures s != []
  {
    if n < 0 then "-" + Decimal(-n) else Decimal(n)
  }

  /** The number alone: the error is dropped, so bad syntax reads 0 and an out-of-range number is clamped. */
  function Atoi(s: string): (n: int)
    ensures MIN_INT64 <= n <= MAX_INT64
  {
    if s == [] then 0
    else
      var body := if s[0] == '-' || s[0] == '+' then s[1..] else s;
      if body == [] || !AllDigits(body) then 0
      else
        var n: int := Value(body);
        if s[0] == '-' then (if -n < MIN_INT64 then MIN_INT64 else -n)
        else if n > MAX_INT64 then MAX_INT64
        else n
  }

  lemma {:induction false} ValueOfDecimal(n: nat)
    ensures Value(Decimal(n)) == n
  {
    var s := Decimal(n);
    if n < 10 {
      assert s[..|s| - 1] == [];
    } else {
      ValueOfDecimal(n / 10);
      assert s[..|s| - 1] == Decimal(n / 10);
    }
  }

  lemma AtoiOfItoa(n: int)
    requires MIN_INT64 <= n <= MAX_INT64
    ensures Atoi(Itoa(n)) == n
  {
    if n < 0 {
      ValueOfDecimal(-n);
      assert Itoa(n)[1..] == Decimal(-n);
    } else {
      ValueOfDecimal(n);
    }
  }

  /** What any text reads as: digits with or without a sign as their number, clamped to 64 bits, and anything else
      as 0. */
  lemma AtoiAnswers(s: string)
    ensures s != [] && AllDigits(s) ==>
      && Atoi(s) == Atoi("+" + s) == (if Value(s) > MAX_INT64 then MAX_INT64 else Value(s))
      && Atoi("-" + s) == (if 0 - Value(s) < MIN_INT64 then MIN_INT64 else 0 - Value(s))
    ensures s == [] || s == "-" || s == "+" ==> Atoi(s) == 0
    ensures s != [] && s[0] != '-' && s[0] != '+' && !AllDigits(s) ==> Atoi(s) == Atoi("-" + s) == Atoi("+" + s) == 0
  {
    assert ("-" + s)[1..] == s && ("+" + s)[1..] == s;
  }
}
