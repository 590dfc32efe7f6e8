/** Node names: `s` or `h` followed by a decimal number, and their order as text. */
module TopoNames {

  function Digit(d: nat): (c: char)
    requires d < 10
    ensures forall e: nat | e < 10 && "0123456789"[e] == c :: e == d
  {
    "0123456789"[d]
  }

  function Decimal(n: nat): (s: string)
    ensures s != []
  {
    if n < 10 then [Digit(n)] else Decimal(n / 10) + [Digit(n % 10)]
  }

  /** Different numbers have different numerals. */
  lemma {:induction false} DecimalInjective(m: nat, n: nat)
    requires Decimal(m) == Decimal(n)
    ensures m == n
  {
    var a, b := Decimal(m), Decimal(n);
    assert a[|a| - 1] == Digit(m % 10) && b[|b| - 1] == Digit(n % 10);
    if m >= 10 && n >= 10 {
      assert a[..|a| - 1] == Decimal(m / 10) && b[..|b| - 1] == Decimal(n / 10);
      DecimalInjective(m / 10, n / 10);
    }
  }

  function SwitchName(n: nat): string { "s" + Decimal(n) }
  function HostName(n: nat): string { "h" + Decimal(n) }

  /** A name tells the kind of a node and its number. */
  lemma NamesAreDistinct(m: nat, n: nat)
    ensures SwitchName(m) == SwitchName(n) ==> m == n
    ensures HostName(m) == HostName(n) ==> m == n
    ensures SwitchName(m) != HostName(n)
  {
    assert SwitchName(m)[1..] == Decimal(m) && SwitchName(n)[1..] == Decimal(n);
    assert HostName(m)[1..] == Decimal(m) && HostName(n)[1..] == Decimal(n);
    assert SwitchName(m)[0] == 's' && HostName(n)[0] == 'h';
    if Decimal(m) == Decimal(n) {
      DecimalInjective(m, n);
    }
  }

  /** Lexicographic order. */
  predicate Less(a: string, b: string) {
    if b == [] then false
    else if a == [] then true
    else if a[0] == b[0] then Less(a[1..], b[1..])
    else a[0] < b[0]
  }

  lemma {:induction false} LessIsTotal(a: string, b: string)
    ensures a == b ==> !Less(a, b)
    ensures a != b ==> (Less(a, b) <==> !Less(b, a))
  {
    if a != [] && b != [] && a[0] == b[0] {
      LessIsTotal(a[1..], b[1..]);
      assert a == [a[0]] + a[1..] && b == [b[0]] + b[1..];
    }
  }
}
