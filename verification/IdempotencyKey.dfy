/** The provider key of a delivery, "disaster-email/<job>/<user>", and why two deliveries never share one. */
module IdempotencyKey {
  import opened Sequences

  function Digit(d: nat): char
    requires d < 10
  {
    "0123456789"[d]
  }

  function DecimalNat(n: nat): string {
    if n < 10 then [Digit(n)] else DecimalNat(n / 10) + [Digit(n % 10)]
  }

  /** The library's `%d` rendering. */
  function Decimal(n: int): string {
    if n < 0 then ['-'] + DecimalNat(-n) else DecimalNat(n)
  }

  const PREFIX := "disaster-email/"

  function Key(job: int, user: int): string {
    PREFIX + Decimal(job) + "/" + Decimal(user)
  }

  /** The number that a decimal text stands for, read from the left. */
  function Value(text: string): int {
    if text == [] then 0
    else if text[0] == '-' then -Value(text[1..])
    else 10 * Value(Init(text)) + (Last(text) as int - '0' as int)
  }

  predicate IsDigit(c: char) {
    '0' <= c <= '9'
  }

  lemma {:induction false} DecimalNatDigits(n: nat)
    ensures DecimalNat(n) != [] && forall i :: 0 <= i < |DecimalNat(n)| ==> IsDigit(DecimalNat(n)[i])
  {
    if n >= 10 {
      DecimalNatDigits(n / 10);
    }
  }

  lemma DigitIsInjective(d: nat, e: nat)
    requires d < 10 && e < 10 && Digit(d) == Digit(e)
    ensures d == e
  {
  }

  lemma {:induction false} DecimalNatIsInjective(m: nat, n: nat)
    requires DecimalNat(m) == DecimalNat(n)
    ensures m == n
    decreases m
  {
    DecimalNatDigits(m / 10);
    DecimalNatDigits(n / 10);
    assert Last(DecimalNat(m)) == Digit(m % 10) && Last(DecimalNat(n)) == Digit(n % 10);
    DigitIsInjective(m % 10, n % 10);
    if m >= 10 && n >= 10 {
      assert Init(DecimalNat(m)) == DecimalNat(m / 10) && Init(DecimalNat(n)) == DecimalNat(n / 10);
      DecimalNatIsInjective(m / 10, n / 10);
    }
  }

  lemma DecimalIsInjective(m: int, n: int)
    requires Decimal(m) == Decimal(n)
    ensures m == n
  {
    var p: nat, q: nat := if m < 0 then -m else m, if n < 0 then -n else n;
    DecimalNatDigits(p);
    DecimalNatDigits(q);
    assert Decimal(m)[0] == '-' <==> m < 0;
    assert Decimal(n)[0] == '-' <==> n < 0;
    if m < 0 {
      assert Decimal(m)[1..] == DecimalNat(p) && Decimal(n)[1..] == DecimalNat(q);
    }
    DecimalNatIsInjective(p, q);
  }

  lemma NoSlashInDecimal(n: int)
    ensures forall i :: 0 <= i < |Decimal(n)| ==> Decimal(n)[i] != '/'
  {
    DecimalNatDigits(if n < 0 then -n else n);
  }

  /** Text around the first slash is determined by the whole. */
  lemma {:induction false} FirstSlash(a: string, b: string, c: string, d: string)
    requires a + "/" + b == c + "/" + d
    requires (forall i :: 0 <= i < |a| ==> a[i] != '/') && (forall i :: 0 <= i < |c| ==> c[i] != '/')
    ensures a == c && b == d
    decreases |a|
  {
    var s, t := a + "/" + b, c + "/" + d;
    assert s[0] == t[0];
    if a != [] && c != [] {
      assert s[1..] == a[1..] + "/" + b && t[1..] == c[1..] + "/" + d;
      FirstSlash(a[1..], b, c[1..], d);
      assert a == [a[0]] + a[1..] && c == [c[0]] + c[1..];
    } else {
      assert s[1..] == b && t[1..] == d;
    }
  }

  lemma SamePrefix(p: string, a: string, b: string)
    requires p + a == p + b
    ensures a == b
  {
    assert (p + a)[|p|..] == a && (p + b)[|p|..] == b;
  }

  /** Two keys are equal exactly when job and user are. */
  lemma KeyIsInjective(job: int, user: int, job': int, user': int)
    ensures Key(job, user) == Key(job', user') <==> job == job' && user == user'
  {
    if Key(job, user) == Key(job', user') {
      SamePrefixOfKeys(PREFIX, job, user, job', user');
      NoSlashInDecimal(job);
      NoSlashInDecimal(job');
      FirstSlash(Decimal(job), Decimal(user), Decimal(job'), Decimal(user'));
      DecimalIsInjective(job, job');
      DecimalIsInjective(user, user');
    }
  }

  lemma {:induction false} DecimalNatValue(n: nat)
    ensures Value(DecimalNat(n)) == n
  {
    DecimalNatDigits(n);
    if n >= 10 {
      DecimalNatValue(n / 10);
      assert Init(DecimalNat(n)) == DecimalNat(n / 10);
    }
  }

  lemma DecimalValue(n: int)
    ensures Value(Decimal(n)) == n
  {
    DecimalNatValue(if n < 0 then -n else n);
    if n < 0 {
      assert Decimal(n)[1..] == DecimalNat(-n);
    } else {
      DecimalNatDigits(n);
    }
  }

  /** After the fixed prefix comes the job, then, after a slash, the user, both in decimal. */
  lemma KeyLayout(job: int, user: int) returns (first: string, second: string)
    ensures Key(job, user) == "disaster-email/" + first + "/" + second
    ensures Value(first) == job && Value(second) == user && '/' !in first && '/' !in second
  {
    first, second := Decimal(job), Decimal(user);
    DecimalValue(job);
    DecimalValue(user);
    NoSlashInDecimal(job);
    NoSlashInDecimal(user);
  }

  lemma PrefixApart(p: string, a: string, s: string, b: string)
    ensures p + a + s + b == p + (a + s + b)
  {
  }

  lemma SamePrefixOfKeys(p: string, job: int, user: int, job': int, user': int)
    requires p + Decimal(job) + "/" + Decimal(user) == p + Decimal(job') + "/" + Decimal(user')
    ensures Decimal(job) + "/" + Decimal(user) == Decimal(job') + "/" + Decimal(user')
  {
    PrefixApart(p, Decimal(job), "/", Decimal(user));
    PrefixApart(p, Decimal(job'), "/", Decimal(user'));
    SamePrefix(p, Decimal(job) + "/" + Decimal(user), Decimal(job') + "/" + Decimal(user'));
  }
}
