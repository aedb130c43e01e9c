/**
 * The data model of the donation report: fetched documents, the donations
 * the collector builds from them, and JavaScript's readings of their fields.
 */
module Donations {
  import opened Wrappers

  /** A display field (a name or a date-like value); None when the document lacks it. */
  type Field = Option<string>

  /** JavaScript truthiness of a display field: present and not the empty string. */
  predicate Truthy(f: Field)
  {
    f.Some? && f.value != ""
  }

  /** The expression `a || b` on two display fields. */
  function Or(a: Field, b: Field): (r: Field)
    ensures Truthy(r) <==> Truthy(a) || Truthy(b)
    ensures Truthy(a) ==> r == a
    ensures !Truthy(a) ==> r == b
  {
    if Truthy(a) then a else b
  }

  /**
   * The `amount` field: absent (`undefined`), or a value whose reading by
   * `Number` is an integer (a number, an integer string, `null`, `""`).
   */
  datatype Amount = Missing | Num(n: int)

  /** A result of JavaScript's `Number(x)` on an amount. */
  datatype Number = NaN | Int(value: int)

  /** `Number(x)`: an absent amount reads as NaN. */
  function ToNumber(a: Amount): Number
  {
    match a
    case Missing => NaN
    case Num(n) => Int(n)
  }

  /** `Number(x || 0)`: a falsy amount is replaced by 0 before the conversion. */
  function Coerced(a: Amount): int
  {
    match a
    case Missing => 0
    case Num(n) => n
  }

  /** The three intake channels, one document collection each. */
  datatype Channel = Cash | Online | Crypto {

    /** The `paymentMethod` tag the collector writes for this channel. */
    function Name(): string
    {
      match this
      case Cash => "Cash"
      case Online => "Online"
      case Crypto => "Crypto"
    }
  }

  /** The body `doc.data()` of a fetched document, restricted to the fields the report reads. */
  datatype Body = Body(
    id: Option<string>,
    name: Field,
    donorName: Field,
    amount: Amount,
    timestamp: Field,
    donatedOn: Field,
    paymentMethod: Option<string>)

  /** A fetched document: its id `doc.id`, its storage path `doc.ref.path` and its body. */
  datatype Document = Document(id: string, path: string, body: Body)

  /** An element of `allDonations`. */
  datatype Donation = Donation(
    id: string,
    name: Field,
    donorName: Field,
    amount: Amount,
    timestamp: Field,
    donatedOn: Field,
    paymentMethod: string)

  /** A donation's amount as the sums read it, `Number(donation.amount || 0)`. */
  function Value(d: Donation): int
  {
    Coerced(d.amount)
  }

  /** `ds.filter(d => d.paymentMethod === m)`. */
  function WithMethod(ds: seq<Donation>, m: string): (r: seq<Donation>)
    ensures forall d :: d in r ==> d.paymentMethod == m
    decreases |ds|
  {
    if ds == [] then []
    else
      var init, last := ds[..|ds| - 1], ds[|ds| - 1];
      assert ds == init + [last];
      WithMethod(init, m) + (if last.paymentMethod == m then [last] else [])
  }

  /** `ds.filter(d => d.paymentMethod !== m)`. */
  function WithoutMethod(ds: seq<Donation>, m: string): (r: seq<Donation>)
    ensures forall d :: d in r ==> d.paymentMethod != m
    decreases |ds|
  {
    if ds == [] then []
    else
      var init, last := ds[..|ds| - 1], ds[|ds| - 1];
      assert ds == init + [last];
      WithoutMethod(init, m) + (if last.paymentMethod != m then [last] else [])
  }

  /** Sum of `Number(d.amount || 0)` over `ds`, added left to right as `reduce` does. */
  function SumOf(ds: seq<Donation>): int
    decreases |ds|
  {
    if ds == [] then 0 else SumOf(ds[..|ds| - 1]) + Value(ds[|ds| - 1])
  }

  lemma {:induction false} SumOfAppend(a: seq<Donation>, b: seq<Donation>)
    ensures SumOf(a + b) == SumOf(a) + SumOf(b)
    decreases |b|
  {
    if b != [] {
      var init := b[..|b| - 1];
      assert (a + b)[..|a + b| - 1] == a + init;
      SumOfAppend(a, init);
    } else {
      assert a + b == a;
    }
  }

  lemma {:induction false} WithMethodAppend(a: seq<Donation>, b: seq<Donation>, m: string)
    ensures WithMethod(a + b, m) == WithMethod(a, m) + WithMethod(b, m)
    ensures WithoutMethod(a + b, m) == WithoutMethod(a, m) + WithoutMethod(b, m)
    decreases |b|
  {
    if b != [] {
      var init := b[..|b| - 1];
      assert (a + b)[..|a + b| - 1] == a + init;
      WithMethodAppend(a, init, m);
    } else {
      assert a + b == a;
    }
  }

  /** The two filters split `ds`: together they keep every donation exactly as often as it occurs. */
  lemma {:induction false} FilterSplit(ds: seq<Donation>, m: string)
    ensures multiset(WithMethod(ds, m)) + multiset(WithoutMethod(ds, m)) == multiset(ds)
    decreases |ds|
  {
    if ds != [] {
      var init, last := ds[..|ds| - 1], ds[|ds| - 1];
      assert ds == init + [last];
      FilterSplit(init, m);
    }
  }

  /** Each filter drops only donations the other keeps: nothing of `ds` is lost. */
  lemma FiltersComplete(ds: seq<Donation>, m: string)
    ensures forall d :: d in ds && d.paymentMethod == m ==> d in WithMethod(ds, m)
    ensures forall d :: d in ds && d.paymentMethod != m ==> d in WithoutMethod(ds, m)
  {
    FilterSplit(ds, m);
    forall d | d in ds
      ensures d in WithMethod(ds, m) || d in WithoutMethod(ds, m)
    {
      assert d in multiset(ds);
    }
  }
}
