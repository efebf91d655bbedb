/**
 Cost records and sums over them. Money and quantity are whole micro-units: six
 decimal places is the precision every layer rounds to. Days are day numbers.
 */
module Costs {
  import opened Common

  datatype Record = Record(
    provider: string, account: string, day: Day, service: string, category: string,
    chargeCategory: string, region: Option<string>, resourceId: Option<string>, resourceName: Option<string>,
    sku: Option<string>, quantity: int, billed: int, effective: int, currency: string,
    tags: map<string, string>, discountId: Option<string>, recordId: string)

  function Sum(rows: seq<Record>, f: Record -> int): int {
    if rows == [] then 0 else f(rows[0]) + Sum(rows[1..], f)
  }

  lemma {:induction false} SumAppend(a: seq<Record>, b: seq<Record>, f: Record -> int)
    ensures Sum(a + b, f) == Sum(a, f) + Sum(b, f)
  {
    if a == [] {
      assert a + b == b;
    } else {
      assert (a + b)[1..] == a[1..] + b;
      SumAppend(a[1..], b, f);
    }
  }

  lemma {:induction false} SumSame(rows: seq<Record>, f: Record -> int, g: Record -> int)
    requires forall r :: r in rows ==> f(r) == g(r)
    ensures Sum(rows, f) == Sum(rows, g)
  {
    if rows != [] {
      SumSame(rows[1..], f, g);
    }
  }

  lemma {:induction false} SumSplit(rows: seq<Record>, f: Record -> int, g: Record -> int, h: Record -> int)
    requires forall r :: r in rows ==> f(r) == g(r) + h(r)
    ensures Sum(rows, f) == Sum(rows, g) + Sum(rows, h)
  {
    if rows != [] {
      SumSplit(rows[1..], f, g, h);
    }
  }

  lemma {:induction false} SumLast(rows: seq<Record>, r: Record, f: Record -> int)
    ensures Sum(rows + [r], f) == Sum(rows, f) + f(r)
  {
    SumAppend(rows, [r], f);
    assert [r][1..] == [];
  }

  /** Which of a record's three amounts is being added up. */
  datatype Amount = Quantity | Billed | Effective

  function Of(r: Record, a: Amount): int {
    match a
    case Quantity => r.quantity
    case Billed => r.billed
    case Effective => r.effective
  }
}
