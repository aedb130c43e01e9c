/**
 * The summarizer's sums over the collected donations: `total`, which leaves
 * out crypto, and the per-method `breakdown`, which does not.
 */
module Summarizer {
  import opened Donations

  /** The donations `total` and `topDonors` read: `filter(d => d.paymentMethod !== 'Crypto')`. */
  function NonCrypto(ds: seq<Donation>): seq<Donation>
  {
    WithoutMethod(ds, Crypto.Name())
  }

  /** `total`: the sum of `Number(amount || 0)` over the non-crypto donations. */
  function Total(ds: seq<Donation>): int
  {
    SumOf(NonCrypto(ds))
  }

  /** `total` leaves out the crypto donations and nothing else. */
  lemma {:induction false} TotalExcludesCrypto(ds: seq<Donation>)
    ensures Total(ds) + SumOf(WithMethod(ds, Crypto.Name())) == SumOf(ds)
    decreases |ds|
  {
    if ds != [] {
      var init, last := ds[..|ds| - 1], ds[|ds| - 1];
      assert ds == init + [last];
      TotalExcludesCrypto(init);
      WithMethodAppend(init, [last], Crypto.Name());
      assert [last][..0] == [];
      SumOfAppend(WithoutMethod(init, Crypto.Name()), WithoutMethod([last], Crypto.Name()));
      SumOfAppend(WithMethod(init, Crypto.Name()), WithMethod([last], Crypto.Name()));
    }
  }

  /** One row of `breakdown`. */
  datatype Entry = Entry(methodName: string, amount: int)

  /** The grouping key `donation.paymentMethod || "Other"`. */
  function MethodKey(d: Donation): string
  {
    if d.paymentMethod == "" then "Other" else d.paymentMethod
  }

  /** The grouping keys of `ds`, in order. */
  function Keys(ds: seq<Donation>): (ks: seq<string>)
    ensures |ks| == |ds|
    decreases |ds|
  {
    if ds == [] then [] else Keys(ds[..|ds| - 1]) + [MethodKey(ds[|ds| - 1])]
  }

  /** The distinct elements of `ks`, each where it first occurs. */
  function FirstOccurrences(ks: seq<string>): seq<string>
    decreases |ks|
  {
    if ks == [] then []
    else
      var init, last := ks[..|ks| - 1], ks[|ks| - 1];
      FirstOccurrences(init) + (if last in init then [] else [last])
  }

  /** The position of the first `k` in `ks`, or `|ks|` when there is none. */
  function FirstIndex(ks: seq<string>, k: string): (p: nat)
    ensures p <= |ks|
    ensures p < |ks| <==> k in ks
    ensures p < |ks| ==> ks[p] == k
    ensures forall q :: 0 <= q < p ==> ks[q] != k
    decreases |ks|
  {
    if ks == [] then 0 else if ks[0] == k then 0 else 1 + FirstIndex(ks[1..], k)
  }

  /** The sum of `Number(amount || 0)` over the donations whose grouping key is `k`. */
  function MethodSum(ds: seq<Donation>, k: string): int
    decreases |ds|
  {
    if ds == [] then 0
    else
      var last := ds[|ds| - 1];
      MethodSum(ds[..|ds| - 1], k) + (if MethodKey(last) == k then Value(last) else 0)
  }

  /** The rows for the keys `u`, in the order of `u`. */
  function EntriesFor(ds: seq<Donation>, u: seq<string>): (es: seq<Entry>)
    ensures |es| == |u|
    decreases |u|
  {
    if u == [] then []
    else
      var last := u[|u| - 1];
      EntriesFor(ds, u[..|u| - 1]) + [Entry(last, MethodSum(ds, last))]
  }

  /** The row at position `i` is the key `u[i]` with its sum. */
  lemma {:induction false} EntriesForAt(ds: seq<Donation>, u: seq<string>)
    ensures forall i :: 0 <= i < |u| ==> EntriesFor(ds, u)[i] == Entry(u[i], MethodSum(ds, u[i]))
    decreases |u|
  {
    if u != [] {
      EntriesForAt(ds, u[..|u| - 1]);
    }
  }

  /**
   * `breakdown`: one row per grouping key, in the order `Object.entries`
   * lists the keys of the accumulator (insertion order), each with its sum.
   */
  function BreakdownOf(ds: seq<Donation>): seq<Entry>
  {
    EntriesFor(ds, FirstOccurrences(Keys(ds)))
  }

  /** The sum of the rows' amounts. */
  function EntriesSum(es: seq<Entry>): int
    decreases |es|
  {
    if es == [] then 0 else EntriesSum(es[..|es| - 1]) + es[|es| - 1].amount
  }

  /** The methods of the rows, in order. */
  function Methods(es: seq<Entry>): (ms: seq<string>)
    ensures |ms| == |es|
    ensures forall i :: 0 <= i < |es| ==> ms[i] == es[i].methodName
  {
    seq(|es|, i requires 0 <= i < |es| => es[i].methodName)
  }

  /** The accumulator object after the `reduce` callback has run over `done`. */
  function AccOf(done: seq<Donation>): map<string, int>
    decreases |done|
  {
    if done == [] then map[]
    else
      var acc, key := AccOf(done[..|done| - 1]), MethodKey(done[|done| - 1]);
      acc[key := (if key in acc then acc[key] else 0) + Value(done[|done| - 1])]
  }

  /** The accumulator holds, for each grouping key of `done`, that key's sum, and no other key. */
  lemma {:induction false} AccOfSums(done: seq<Donation>)
    ensures forall k :: k in AccOf(done) <==> k in Keys(done)
    ensures forall k :: k in AccOf(done) ==> AccOf(done)[k] == MethodSum(done, k)
    decreases |done|
  {
    if done != [] {
      var init, d := done[..|done| - 1], done[|done| - 1];
      assert done == init + [d];
      AccOfSums(init);
      AccumulateStep(init, d);
    }
  }

  /**
   * The `reduce` that fills the accumulator `acc[method]` in place, followed
   * by `Object.entries(...).map(...)`. `order` records the accumulator's keys
   * in insertion order.
   */
  method Breakdown(ds: seq<Donation>) returns (entries: seq<Entry>)
    ensures entries == BreakdownOf(ds)
  {
    var acc: map<string, int> := map[];
    var order: seq<string> := [];
    var i := 0;
    while i < |ds|
      invariant 0 <= i <= |ds|
      invariant order == FirstOccurrences(Keys(ds[..i]))
      invariant acc == AccOf(ds[..i])
    {
      assert ds[..i + 1] == ds[..i] + [ds[i]];
      acc, order := AddDonation(acc, order, ds[..i], ds[i]);
      i := i + 1;
    }
    assert ds[..i] == ds;
    AccumulatorEntries(ds[..i], acc, order);
    entries := EntriesOf(acc, order);
  }

  /**
   * The `reduce` callback: `acc[method] = (acc[method] || 0) + Number(amount || 0)`,
   * with `order` tracking the keys in the order they were first added.
   */
  method AddDonation(acc: map<string, int>, order: seq<string>, ghost done: seq<Donation>, d: Donation)
    returns (acc': map<string, int>, order': seq<string>)
    requires acc == AccOf(done) && order == FirstOccurrences(Keys(done))
    ensures acc' == AccOf(done + [d]) && order' == FirstOccurrences(Keys(done + [d]))
  {
    var key := MethodKey(d);
    assert (done + [d])[..|done|] == done;
    OrderStep(done, d, done + [d]);
    order' := order;
    if key !in acc {
      order' := order + [key];
    }
    acc' := acc[key := (if key in acc then acc[key] else 0) + Value(d)];
  }

  /** Key insertion order after one more step of the `reduce`: the key is appended when it is new. */
  lemma OrderStep(done: seq<Donation>, d: Donation, done': seq<Donation>)
    requires done' == done + [d]
    ensures FirstOccurrences(Keys(done')) == FirstOccurrences(Keys(done)) + (if MethodKey(d) in AccOf(done) then [] else [MethodKey(d)])
  {
    AccOfSums(done);
    KeysSnoc(done, d);
    FirstOccurrencesSnoc(Keys(done), MethodKey(d));
  }

  /**
   * `Object.entries(acc).map(([method, amount]) => ({ method, amount }))`,
   * with the keys listed in their insertion order `order`.
   */
  function EntriesOf(acc: map<string, int>, order: seq<string>): (es: seq<Entry>)
    requires forall k :: k in order ==> k in acc
  {
    seq(|order|, j requires 0 <= j < |order| => Entry(order[j], acc[order[j]]))
  }

  /** The entries of the finished accumulator, in key insertion order, are the breakdown. */
  lemma AccumulatorEntries(done: seq<Donation>, acc: map<string, int>, order: seq<string>)
    requires acc == AccOf(done) && order == FirstOccurrences(Keys(done))
    ensures forall k :: k in order ==> k in acc
    ensures EntriesOf(acc, order) == BreakdownOf(done)
  {
    AccOfSums(done);
    FirstOccurrencesElements(Keys(done));
    EntriesForAt(done, order);
  }

  lemma KeysSnoc(ds: seq<Donation>, d: Donation)
    ensures Keys(ds + [d]) == Keys(ds) + [MethodKey(d)]
  {
    assert (ds + [d])[..|ds|] == ds;
  }

  lemma MethodSumSnoc(ds: seq<Donation>, d: Donation, k: string)
    ensures MethodSum(ds + [d], k) == MethodSum(ds, k) + (if MethodKey(d) == k then Value(d) else 0)
  {
    assert (ds + [d])[..|ds|] == ds;
  }

  lemma FirstOccurrencesSnoc(ks: seq<string>, k: string)
    ensures k in ks ==> FirstOccurrences(ks + [k]) == FirstOccurrences(ks)
    ensures k !in ks ==> FirstOccurrences(ks + [k]) == FirstOccurrences(ks) + [k]
  {
    assert (ks + [k])[..|ks|] == ks;
    assert FirstOccurrences(ks) + [] == FirstOccurrences(ks);
  }

  /** One step of the `reduce`: the accumulator of `init + [d]` holds the sums of `init + [d]`. */
  lemma AccumulateStep(init: seq<Donation>, d: Donation)
    requires forall k :: k in AccOf(init) <==> k in Keys(init)
    requires forall k :: k in AccOf(init) ==> AccOf(init)[k] == MethodSum(init, k)
    ensures forall k :: k in AccOf(init + [d]) <==> k in Keys(init + [d])
    ensures forall k :: k in AccOf(init + [d]) ==> AccOf(init + [d])[k] == MethodSum(init + [d], k)
  {
    var key := MethodKey(d);
    assert (init + [d])[..|init|] == init;
    KeysSnoc(init, d);
    if key !in AccOf(init) {
      MethodSumAbsent(init, key);
    }
    forall k
      ensures k in AccOf(init + [d]) <==> k in Keys(init + [d])
      ensures k in AccOf(init + [d]) ==> AccOf(init + [d])[k] == MethodSum(init + [d], k)
    {
      MethodSumSnoc(init, d, k);
    }
  }

  /** No element of `u` occurs twice. */
  predicate Distinct(u: seq<string>)
  {
    forall i, j :: 0 <= i < j < |u| ==> u[i] != u[j]
  }

  /** `FirstOccurrences(ks)` has no repeats and holds exactly the elements of `ks`. */
  lemma {:induction false} FirstOccurrencesElements(ks: seq<string>)
    ensures Distinct(FirstOccurrences(ks))
    ensures forall k :: k in FirstOccurrences(ks) <==> k in ks
    decreases |ks|
  {
    if ks != [] {
      var init := ks[..|ks| - 1];
      assert ks == init + [ks[|ks| - 1]];
      FirstOccurrencesElements(init);
    }
  }

  lemma {:induction false} FirstIndexSnoc(ks: seq<string>, last: string, k: string)
    ensures FirstIndex(ks + [last], k) == if k in ks then FirstIndex(ks, k) else if k == last then |ks| else |ks| + 1
    decreases |ks|
  {
    if ks != [] {
      assert (ks + [last])[1..] == ks[1..] + [last];
      FirstIndexSnoc(ks[1..], last, k);
    }
  }

  /** The keys of `FirstOccurrences(ks)` come in the order of their first occurrence in `ks`. */
  lemma {:induction false} FirstOccurrencesOrder(ks: seq<string>)
    ensures forall i, j :: 0 <= i < j < |FirstOccurrences(ks)| ==>
              FirstIndex(ks, FirstOccurrences(ks)[i]) < FirstIndex(ks, FirstOccurrences(ks)[j])
    decreases |ks|
  {
    if ks != [] {
      var init, last := ks[..|ks| - 1], ks[|ks| - 1];
      assert ks == init + [last];
      FirstOccurrencesOrder(init);
      FirstOccurrencesElements(init);
      var u := FirstOccurrences(init);
      forall x | x in u
        ensures FirstIndex(ks, x) == FirstIndex(init, x) < |init|
      {
        FirstIndexSnoc(init, last, x);
      }
      if last !in init {
        FirstIndexSnoc(init, last, last);
      }
    }
  }

  /** A key no donation has sums to 0. */
  lemma {:induction false} MethodSumAbsent(ds: seq<Donation>, k: string)
    requires k !in Keys(ds)
    ensures MethodSum(ds, k) == 0
    decreases |ds|
  {
    if ds != [] {
      var init := ds[..|ds| - 1];
      assert Keys(init) == Keys(ds)[..|ds| - 1];
      MethodSumAbsent(init, k);
    }
  }

  /** Adding a donation adds its value to the rows of distinct keys `u` once, if its key is among them. */
  lemma {:induction false} EntriesSumSnoc(ds: seq<Donation>, d: Donation, u: seq<string>)
    requires Distinct(u)
    ensures EntriesSum(EntriesFor(ds + [d], u))
            == EntriesSum(EntriesFor(ds, u)) + (if MethodKey(d) in u then Value(d) else 0)
    decreases |u|
  {
    if u != [] {
      var init, last := u[..|u| - 1], u[|u| - 1];
      assert u == init + [last];
      EntriesSumSnoc(ds, d, init);
      assert (ds + [d])[..|ds|] == ds;
      var es, es' := EntriesFor(ds, u), EntriesFor(ds + [d], u);
      assert es[..|es| - 1] == EntriesFor(ds, init);
      assert es'[..|es'| - 1] == EntriesFor(ds + [d], init);
    }
  }

  lemma EntriesForSnoc(ds: seq<Donation>, u: seq<string>, k: string)
    ensures EntriesSum(EntriesFor(ds, u + [k])) == EntriesSum(EntriesFor(ds, u)) + MethodSum(ds, k)
  {
    var es := EntriesFor(ds, u + [k]);
    assert (u + [k])[..|u|] == u;
    assert es[..|es| - 1] == EntriesFor(ds, u);
  }

  lemma SumOfSnoc(ds: seq<Donation>, d: Donation)
    ensures SumOf(ds + [d]) == SumOf(ds) + Value(d)
  {
    assert (ds + [d])[..|ds|] == ds;
  }

  /** Appending one donation keeps the rows' sum equal to the sum of all values. */
  lemma BreakdownTotalSnoc(init: seq<Donation>, d: Donation)
    requires EntriesSum(BreakdownOf(init)) == SumOf(init)
    ensures EntriesSum(BreakdownOf(init + [d])) == SumOf(init + [d])
  {
    var k, ks := MethodKey(d), Keys(init);
    var u := FirstOccurrences(ks);
    KeysSnoc(init, d);
    FirstOccurrencesSnoc(ks, k);
    SumOfSnoc(init, d);
    FirstOccurrencesElements(ks);
    EntriesSumSnoc(init, d, u);
    if k !in ks {
      EntriesForSnoc(init + [d], u, k);
      MethodSumAbsent(init, k);
      MethodSumSnoc(init, d, k);
    }
  }

  /** The rows of `breakdown` add up to the sum over all donations, crypto included. */
  lemma {:induction false} BreakdownTotal(ds: seq<Donation>)
    ensures EntriesSum(BreakdownOf(ds)) == SumOf(ds)
    decreases |ds|
  {
    if ds != [] {
      var init, d := ds[..|ds| - 1], ds[|ds| - 1];
      BreakdownTotal(init);
      BreakdownTotalSnoc(init, d);
      assert ds == init + [d];
    }
  }

  /** A key is among `Keys(ds)` exactly when some donation of `ds` has it. */
  lemma {:induction false} KeysMembers(ds: seq<Donation>)
    ensures forall k :: k in Keys(ds) <==> exists i :: 0 <= i < |ds| && MethodKey(ds[i]) == k
    decreases |ds|
  {
    if ds != [] {
      var init, d := ds[..|ds| - 1], ds[|ds| - 1];
      KeysMembers(init);
      forall k
        ensures k in Keys(ds) <==> exists i :: 0 <= i < |ds| && MethodKey(ds[i]) == k
      {
        if k in Keys(init) {
          var i :| 0 <= i < |init| && MethodKey(init[i]) == k;
          assert ds[i] == init[i];
        }
        if exists i :: 0 <= i < |ds| && MethodKey(ds[i]) == k {
          var i :| 0 <= i < |ds| && MethodKey(ds[i]) == k;
          if i < |init| {
            assert init[i] == ds[i];
          }
        }
      }
    }
  }

  /**
   * `breakdown` has exactly one row per grouping key present, no key twice,
   * in order of first occurrence, each row holding that key's sum.
   */
  lemma BreakdownRows(ds: seq<Donation>)
    ensures forall i, j :: 0 <= i < j < |BreakdownOf(ds)| ==> BreakdownOf(ds)[i].methodName != BreakdownOf(ds)[j].methodName
    ensures forall k :: k in Methods(BreakdownOf(ds)) <==> exists i :: 0 <= i < |ds| && MethodKey(ds[i]) == k
    ensures forall i, j :: 0 <= i < j < |BreakdownOf(ds)| ==>
              FirstIndex(Keys(ds), BreakdownOf(ds)[i].methodName) < FirstIndex(Keys(ds), BreakdownOf(ds)[j].methodName)
    ensures forall i :: 0 <= i < |BreakdownOf(ds)| ==>
              BreakdownOf(ds)[i].amount == MethodSum(ds, BreakdownOf(ds)[i].methodName)
  {
    var u := FirstOccurrences(Keys(ds));
    FirstOccurrencesElements(Keys(ds));
    FirstOccurrencesOrder(Keys(ds));
    KeysMembers(ds);
    EntriesForAt(ds, u);
    assert Methods(BreakdownOf(ds)) == u;
  }

  /** A channel's row sums exactly that channel's donations; for crypto, its token amounts. */
  lemma {:induction false} MethodSumIsChannelSum(ds: seq<Donation>, m: string)
    requires m != "" && m != "Other"
    ensures MethodSum(ds, m) == SumOf(WithMethod(ds, m))
    decreases |ds|
  {
    if ds != [] {
      var init, last := ds[..|ds| - 1], ds[|ds| - 1];
      assert ds == init + [last];
      MethodSumIsChannelSum(init, m);
      WithMethodAppend(init, [last], m);
      assert [last][..0] == [];
      SumOfAppend(WithMethod(init, m), WithMethod([last], m));
    }
  }
}
