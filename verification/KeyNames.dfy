/** The names idempotency keys are derived from. UUIDv5 itself is taken to be injective;
    what is proved here is that no two rows share a name, which is why the model may
    identify a key with the row it is made for. */
module KeyNames {
  import opened Schema

  function Digit(d: nat): char
    requires d < 10
  {
    '0' + d as char
  }

  function Decimal(n: nat): string {
    if n < 10 then [Digit(n)] else Decimal(n / 10) + [Digit(n % 10)]
  }

  function Value(s: string): int {
    if s == "" then 0 else Value(s[..|s| - 1]) * 10 + (s[|s| - 1] as int - '0' as int)
  }

  lemma {:induction false} DecimalValue(n: nat)
    ensures Value(Decimal(n)) == n
  {
    if n >= 10 {
      DecimalValue(n / 10);
      assert Decimal(n)[..|Decimal(n)| - 1] == Decimal(n / 10);
    } else {
      assert Decimal(n)[..0] == "";
    }
  }

  function Prefix(o: Owner): string {
    match o
    case Redeem(_) => "redeem:"
    case Refund(_) => "refund:"
    case Withdraw(_) => "operator-withdraw:"
  }

  function KeyName(o: Owner): string {
    Prefix(o) + Decimal(o.id)
  }

  lemma KeyNamesDistinct(a: Owner, b: Owner)
    requires KeyName(a) == KeyName(b)
    ensures a == b
  {
    assert KeyName(a)[0] == Prefix(a)[0] && KeyName(b)[0] == Prefix(b)[0];
    assert KeyName(a)[2] == Prefix(a)[2] && KeyName(b)[2] == Prefix(b)[2];
    assert Prefix(a) == Prefix(b);
    assert Decimal(a.id) == KeyName(a)[|Prefix(a)|..];
    assert Decimal(b.id) == KeyName(b)[|Prefix(b)|..];
    DecimalValue(a.id);
    DecimalValue(b.id);
  }
}
