/** Numbers as text, in decimal and hexadecimal. */
module Numerals {
  import opened Model

  const DIGITS := "0123456789abcdef"

  predicate Base(b: nat) { b == 10 || b == 16 }

  function Numeral(n: nat, b: nat): (s: string)
    requires Base(b)
    ensures s != []
  {
    if n < b then [DIGITS[n]] else Numeral(n / b, b) + [DIGITS[n % b]]
  }

  function Decimal(n: nat): string { Numeral(n, 10) }

  /** The value of a digit; letters count in either case. */
  function Digit(c: char): Option<nat> {
    if '0' <= c <= '9' then Some((c - '0') as nat)
    else if 'a' <= c <= 'f' then Some((c - 'a') as nat + 10)
    else if 'A' <= c <= 'F' then Some((c - 'A') as nat + 10)
    else None
  }

  function Shifted(high: nat, b: nat): nat
    requires Base(b)
  {
    if b == 10 then 10 * high else 16 * high
  }

  /** Reads a non-empty string of digits of the base. */
  function Read(s: string, b: nat): Option<nat>
    requires Base(b)
  {
    if s == [] then None
    else
      var last := Digit(s[|s| - 1]);
      if last.None? || last.value >= b then None
      else if |s| == 1 then last
      else
        match Read(s[..|s| - 1], b)
        case None => None
        case Some(high) => Some(Shifted(high, b) + last.value)
  }

  lemma DigitsRead(d: nat)
    requires d < 16
    ensures Digit(DIGITS[d]) == Some(d)
  {
  }

  lemma DigitsArePlain(d: nat, c: char)
    requires d < 16 && c in ":/+"
    ensures DIGITS[d] != c
  {
  }

  lemma Recompose(n: nat, b: nat)
    requires Base(b)
    ensures Shifted(n / b, b) + n % b == n
  {
  }

  lemma ReadAppends(s: string, c: char, d: nat, b: nat)
    requires Base(b) && d < b && Digit(c) == Some(d) && Read(s, b).Some?
    ensures Read(s + [c], b) == Some(Shifted(Read(s, b).value, b) + d)
  {
    var t := s + [c];
    assert t[..|t| - 1] == s && t[|t| - 1] == c;
  }

  lemma {:induction false} NumeralReads(n: nat, b: nat)
    requires Base(b)
    ensures Read(Numeral(n, b), b) == Some(n)
  {
    if n < b {
      DigitsRead(n);
    } else {
      NumeralReads(n / b, b);
      DigitsRead(n % b);
      ReadAppends(Numeral(n / b, b), DIGITS[n % b], n % b, b);
      Recompose(n, b);
    }
  }

  lemma NumeralIsInjective(m: nat, n: nat, b: nat)
    requires Base(b) && Numeral(m, b) == Numeral(n, b)
    ensures m == n
  {
    NumeralReads(m, b);
    NumeralReads(n, b);
  }

  lemma {:induction false} NumeralIsPlain(n: nat, b: nat, c: char)
    requires Base(b) && c in ":/+"
    ensures c !in Numeral(n, b)
  {
    if n < b {
      DigitsArePlain(n, c);
    } else {
      DigitsArePlain(n % b, c);
      NumeralIsPlain(n / b, b, c);
    }
  }
}
