/** Call identifiers: `call-N`, their order, and the number read back from them. */
module CallIds {
  import opened Base

  type CallId = string

  const PREFIX := "call-"

  predicate IsDigit(c: char) { '0' <= c <= '9' }

  function Digit(d: nat): char
    requires d < 10
  {
    "0123456789"[d]
  }

  /** Decimal rendering of a counter value. */
  function Decimal(n: nat): string {
    if n < 10 then [Digit(n)] else Decimal(n / 10) + [Digit(n % 10)]
  }

  function DigitsValue(s: string): nat
    requires forall c | c in s :: IsDigit(c)
  {
    if s == [] then 0
    else
      assert IsDigit(s[|s| - 1]);
      DigitsValue(s[..|s| - 1]) * 10 + (s[|s| - 1] as int - '0' as int)
  }

  /** `str::parse::<u64>`: one optional plus sign, then at least one digit, no overflow. */
  function ParseU64(s: string): Option<nat> {
    var body := if s != [] && s[0] == '+' then s[1..] else s;
    if body == [] || exists c | c in body :: !IsDigit(c) then None
    else if DigitsValue(body) > U64_MAX then None
    else Some(DigitsValue(body))
  }

  /** The age of a call; identifiers that do not parse count as oldest. */
  function CallSeq(id: CallId): nat {
    if PREFIX <= id then
      match ParseU64(id[|PREFIX|..])
      case Some(n) => n
      case None => 0
    else 0
  }

  function CallIdOf(n: nat): CallId { PREFIX + Decimal(n) }

  lemma {:induction false} DecimalDigits(n: nat)
    ensures Decimal(n) != []
    ensures forall c | c in Decimal(n) :: IsDigit(c)
    ensures DigitsValue(Decimal(n)) == n
  {
    if n >= 10 {
      DecimalDigits(n / 10);
      var s := Decimal(n);
      assert s[..|s| - 1] == Decimal(n / 10);
    } else {
      var s := Decimal(n);
      assert s[..|s| - 1] == [];
      assert DigitsValue(s) == n;
    }
  }

  /** Reading back the number of a fresh identifier gives the counter value. */
  lemma CallSeqOfCallId(n: nat)
    requires n <= U64_MAX
    ensures CallSeq(CallIdOf(n)) == n
  {
    DecimalDigits(n);
    var id := CallIdOf(n);
    assert id[|PREFIX|..] == Decimal(n);
    assert Decimal(n)[0] in Decimal(n);
  }

  /** Identifiers order as strings, so the tenth call sorts before the second. */
  predicate StringLess(a: string, b: string) {
    if b == [] then false
    else if a == [] then true
    else if a[0] != b[0] then a[0] < b[0]
    else StringLess(a[1..], b[1..])
  }

  lemma {:induction false} StringLessTotal(a: string, b: string)
    ensures a == b || StringLess(a, b) || StringLess(b, a)
    ensures !(StringLess(a, b) && StringLess(b, a))
    decreases |a|
  {
    if a != [] && b != [] && a[0] == b[0] {
      StringLessTotal(a[1..], b[1..]);
      assert a == [a[0]] + a[1..];
      assert b == [b[0]] + b[1..];
    }
  }

  lemma {:induction false} StringLessTransitive(a: string, b: string, c: string)
    requires StringLess(a, b) && StringLess(b, c)
    ensures StringLess(a, c)
    decreases |a|
  {
    if a != [] && a[0] == b[0] && b[0] == c[0] {
      StringLessTransitive(a[1..], b[1..], c[1..]);
    }
  }

  /** `a` and `b` agree on their first `n` characters, and there `a` ends or has the smaller one. */
  predicate PartsAt(a: string, b: string, n: nat) {
    n <= |a| && n < |b| && a[..n] == b[..n] && (n == |a| || a[n] < b[n])
  }

  lemma {:induction false} LessAt(a: string, b: string) returns (n: nat)
    requires StringLess(a, b)
    ensures PartsAt(a, b, n)
    decreases |a|
  {
    n := 0;
    if a != [] && a[0] == b[0] {
      var k := LessAt(a[1..], b[1..]);
      n := k + 1;
      assert a[..n] == [a[0]] + a[1..][..k] && b[..n] == [b[0]] + b[1..][..k];
    }
  }

  lemma {:induction false} PartedIsLess(a: string, b: string, n: nat)
    requires PartsAt(a, b, n)
    ensures StringLess(a, b)
  {
    if n > 0 {
      assert a[0] == a[..n][0] == b[..n][0];
      assert a[1..][..n - 1] == a[..n][1..] && b[1..][..n - 1] == b[..n][1..];
      PartedIsLess(a[1..], b[1..], n - 1);
    }
  }

  /** The order of identifiers is the one of a dictionary. */
  lemma StringLessIff(a: string, b: string)
    ensures StringLess(a, b) <==> exists n: nat :: PartsAt(a, b, n)
  {
    if StringLess(a, b) { var n := LessAt(a, b); }
    if n: nat :| PartsAt(a, b, n) { PartedIsLess(a, b, n); }
  }

  /** So the call numbered ten comes before the one numbered two. */
  lemma TenBeforeTwo()
    ensures CallIdOf(10) == "call-10" && CallIdOf(2) == "call-2" && StringLess(CallIdOf(10), CallIdOf(2))
  {
    assert Decimal(10) == "10";
    assert PartsAt("call-10", "call-2", 5);
    PartedIsLess("call-10", "call-2", 5);
  }
}
