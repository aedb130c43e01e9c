/**
 * `topDonors`: the non-crypto donations copied, sorted by amount with the
 * comparator `(a, b) => Number(b.amount) - Number(a.amount)`, cut to the
 * first three and projected to `{ name, amount, date }`.
 */
module Ranking {
  import opened Donations
  import opened Summarizer

  /**
   * The comparator as `Array.prototype.sort` uses it: a negative result puts
   * `a` first, and a NaN result (an absent amount) counts as 0 (SortCompare,
   * section 23.1.3.30.2 of ECMA-262).
   */
  function Compare(a: Donation, b: Donation): int
  {
    match (ToNumber(a.amount), ToNumber(b.amount))
    case (Int(x), Int(y)) => y - x
    case _ => 0
  }

  /** Insert `x` into `r` before the first element it compares below, after all it ties with. */
  function Insert(r: seq<Donation>, x: Donation): (s: seq<Donation>)
    ensures multiset(s) == multiset(r) + multiset{x}
    ensures |s| == |r| + 1
  {
    if r == [] then [x]
    else if Compare(x, r[0]) < 0 then [x] + r
    else
      assert r == [r[0]] + r[1..];
      [r[0]] + Insert(r[1..], x)
  }

  /** A stable sort with `Compare`, as an insertion sort over `s` from left to right. */
  function SortByAmount(s: seq<Donation>): (r: seq<Donation>)
    ensures multiset(r) == multiset(s)
    ensures |r| == |s|
    decreases |s|
  {
    if s == [] then []
    else
      assert s == s[..|s| - 1] + [s[|s| - 1]];
      Insert(SortByAmount(s[..|s| - 1]), s[|s| - 1])
  }

  /** Every donation of `s` has an amount, so `Compare` is a consistent comparator on `s`. */
  ghost predicate Priced(s: seq<Donation>)
  {
    forall d :: d in s ==> d.amount.Num?
  }

  /** `s` is non-increasing in amount. */
  ghost predicate Descending(s: seq<Donation>)
  {
    forall i, j :: 0 <= i < j < |s| ==> Value(s[j]) <= Value(s[i])
  }

  /** The donations of `s` whose amount is `v`, in order. */
  function WithValue(s: seq<Donation>, v: int): seq<Donation>
    decreases |s|
  {
    if s == [] then []
    else
      var last := s[|s| - 1];
      WithValue(s[..|s| - 1], v) + (if Value(last) == v then [last] else [])
  }

  lemma {:induction false} WithValueAppend(a: seq<Donation>, b: seq<Donation>, v: int)
    ensures WithValue(a + b, v) == WithValue(a, v) + WithValue(b, v)
    decreases |b|
  {
    if b != [] {
      var init := b[..|b| - 1];
      assert (a + b)[..|a + b| - 1] == a + init;
      WithValueAppend(a, init, v);
    } else {
      assert a + b == a;
    }
  }

  lemma HeadIsLargest(r: seq<Donation>)
    requires Descending(r) && r != []
    ensures forall e :: e in r ==> Value(e) <= Value(r[0])
  {
    forall e | e in r
      ensures Value(e) <= Value(r[0])
    {
      var j :| 0 <= j < |r| && r[j] == e;
    }
  }

  /** What `Insert` returns is made of `x` and the elements of `r`. */
  lemma InsertMembers(r: seq<Donation>, x: Donation)
    ensures forall e :: e in Insert(r, x) ==> e == x || e in r
  {
    forall e | e in Insert(r, x)
      ensures e == x || e in r
    {
      assert e in multiset(Insert(r, x));
    }
  }

  /** Dropping the first element keeps a sequence priced and non-increasing. */
  lemma TailRanked(r: seq<Donation>)
    requires r != [] && Priced(r) && Descending(r)
    ensures Priced(r[1..]) && Descending(r[1..])
  {
    assert forall e :: e in r[1..] ==> e in r;
    forall i, j | 0 <= i < j < |r| - 1
      ensures Value(r[1..][j]) <= Value(r[1..][i])
    {
      assert r[1..][j] == r[j + 1] && r[1..][i] == r[i + 1];
    }
  }

  /** Sorting keeps every amount present. */
  lemma SortPriced(s: seq<Donation>)
    requires Priced(s)
    ensures Priced(SortByAmount(s))
  {
    forall e | e in SortByAmount(s)
      ensures e.amount.Num?
    {
      assert e in multiset(SortByAmount(s));
    }
  }

  /** Putting `h` in front of a non-increasing `t` whose elements are at most `h` keeps it non-increasing. */
  lemma ConsDescending(h: Donation, t: seq<Donation>)
    requires Descending(t)
    requires forall e :: e in t ==> Value(e) <= Value(h)
    ensures Descending([h] + t)
  {
    var s := [h] + t;
    forall i, j | 0 <= i < j < |s|
      ensures Value(s[j]) <= Value(s[i])
    {
      assert s[j] == t[j - 1] && t[j - 1] in t;
      if i > 0 {
        assert s[i] == t[i - 1];
      }
    }
  }

  lemma {:induction false} InsertDescending(r: seq<Donation>, x: Donation)
    requires Priced(r) && x.amount.Num? && Descending(r)
    ensures Descending(Insert(r, x))
    decreases |r|
  {
    if r == [] {
    } else if Compare(x, r[0]) < 0 {
      HeadIsLargest(r);
      assert Insert(r, x) == [x] + r;
      ConsDescending(x, r);
    } else {
      var rest := r[1..];
      TailRanked(r);
      InsertDescending(rest, x);
      HeadIsLargest(r);
      InsertMembers(rest, x);
      assert forall e :: e in rest ==> e in r;
      assert Insert(r, x) == [r[0]] + Insert(rest, x);
      ConsDescending(r[0], Insert(rest, x));
    }
  }

  /** The donations of `s` whose amount is `v` when there are none. */
  lemma WithValueNone(s: seq<Donation>, v: int)
    requires forall e :: e in s ==> Value(e) != v
    ensures WithValue(s, v) == []
  {
    if WithValue(s, v) != [] {
      WithValueMembers(s, v);
      assert WithValue(s, v)[0] in WithValue(s, v);
    }
  }

  /** The donations selected by amount `v` come from `s` and have amount `v`. */
  lemma {:induction false} WithValueMembers(s: seq<Donation>, v: int)
    ensures forall d :: d in WithValue(s, v) ==> d in s && Value(d) == v
    decreases |s|
  {
    if s != [] {
      var init := s[..|s| - 1];
      WithValueMembers(init, v);
      assert forall d :: d in init ==> d in s;
    }
  }

  lemma {:induction false} InsertStable(r: seq<Donation>, x: Donation, v: int)
    requires Priced(r) && x.amount.Num? && Descending(r)
    ensures WithValue(Insert(r, x), v) == WithValue(r, v) + WithValue([x], v)
    decreases |r|
  {
    if r == [] {
      assert Insert(r, x) == [x];
      assert WithValue(r, v) + WithValue([x], v) == WithValue([x], v);
    } else if Compare(x, r[0]) < 0 {
      InsertFirstStable(r, x, v);
    } else {
      var rest := r[1..];
      TailRanked(r);
      InsertStable(rest, x, v);
      InsertLaterStable(r, x, v);
    }
  }

  /** When `x` goes after the head, the head's contribution comes first and the rest is as for `r[1..]`. */
  lemma InsertLaterStable(r: seq<Donation>, x: Donation, v: int)
    requires r != [] && Compare(x, r[0]) >= 0
    requires WithValue(Insert(r[1..], x), v) == WithValue(r[1..], v) + WithValue([x], v)
    ensures WithValue(Insert(r, x), v) == WithValue(r, v) + WithValue([x], v)
  {
    var rest := r[1..];
    var head := WithValue([r[0]], v);
    assert WithValue(Insert(r, x), v) == head + WithValue(Insert(rest, x), v) by {
      assert Insert(r, x) == [r[0]] + Insert(rest, x);
      WithValueAppend([r[0]], Insert(rest, x), v);
    }
    assert WithValue(r, v) == head + WithValue(rest, v) by {
      assert r == [r[0]] + rest;
      WithValueAppend([r[0]], rest, v);
    }
  }

  /** `Insert` puts `x` first only when it is larger than all of `r`, so no element of `r` ties with it. */
  lemma InsertFirstStable(r: seq<Donation>, x: Donation, v: int)
    requires Priced(r) && x.amount.Num? && Descending(r)
    requires r != [] && Compare(x, r[0]) < 0
    ensures WithValue(Insert(r, x), v) == WithValue(r, v) + WithValue([x], v)
  {
    HeadIsLargest(r);
    WithValueAppend([x], r, v);
    assert Insert(r, x) == [x] + r;
    if Value(x) == v {
      WithValueNone(r, v);
      assert WithValue([x], v) + [] == [] + WithValue([x], v);
    } else {
      WithValueNone([x], v);
      assert [] + WithValue(r, v) == WithValue(r, v) + [];
    }
  }

  /** The sort is non-increasing when every amount is present. */
  lemma {:induction false} SortDescending(s: seq<Donation>)
    requires Priced(s)
    ensures Descending(SortByAmount(s))
    decreases |s|
  {
    if s != [] {
      var init := s[..|s| - 1];
      assert forall e :: e in init ==> e in s;
      SortDescending(init);
      SortPriced(init);
      InsertDescending(SortByAmount(init), s[|s| - 1]);
    }
  }

  /** The sort is stable: the donations of each amount keep their order. */
  lemma {:induction false} SortStable(s: seq<Donation>, v: int)
    requires Priced(s)
    ensures WithValue(SortByAmount(s), v) == WithValue(s, v)
    decreases |s|
  {
    if s != [] {
      var init, last := s[..|s| - 1], s[|s| - 1];
      assert forall e :: e in init ==> e in s;
      assert s == init + [last];
      SortStable(init, v);
      SortDescending(init);
      SortPriced(init);
      InsertStable(SortByAmount(init), last, v);
      WithValueAppend(init, [last], v);
    }
  }

  /** An entry of `topDonors`. */
  datatype TopDonor = TopDonor(name: Field, amount: Number, date: Field)

  /** `.slice(0, 3)` of the sorted copy: the donations `topDonors` is made from. */
  function Selected(ds: seq<Donation>): seq<Donation>
  {
    var ranked := SortByAmount(NonCrypto(ds));
    ranked[..if |ranked| < 3 then |ranked| else 3]
  }

  /** `{ name: donor.name || donor.donorName, amount: Number(donor.amount), date: donor.timestamp || donor.donatedOn }`. */
  function Project(d: Donation): TopDonor
  {
    TopDonor(Or(d.name, d.donorName), ToNumber(d.amount), Or(d.timestamp, d.donatedOn))
  }

  /** `topDonors`. */
  function TopDonors(ds: seq<Donation>): seq<TopDonor>
  {
    var selected := Selected(ds);
    seq(|selected|, i requires 0 <= i < |selected| => Project(selected[i]))
  }

  /**
   * `topDonors` holds `min(3, n)` entries for `n` non-crypto donations, each
   * projected from a distinct non-crypto donation; the name falls back to
   * `donorName` and the date to `donatedOn`.
   */
  lemma TopDonorsShape(ds: seq<Donation>)
    ensures |TopDonors(ds)| == if |NonCrypto(ds)| < 3 then |NonCrypto(ds)| else 3
    ensures multiset(Selected(ds)) <= multiset(NonCrypto(ds))
    ensures forall d :: d in Selected(ds) ==> d.paymentMethod != Crypto.Name()
    ensures forall i :: 0 <= i < |TopDonors(ds)| ==>
              var d := Selected(ds)[i];
              && TopDonors(ds)[i].amount == ToNumber(d.amount)
              && (Truthy(TopDonors(ds)[i].name) <==> Truthy(d.name) || Truthy(d.donorName))
              && (Truthy(d.name) ==> TopDonors(ds)[i].name == d.name)
              && (!Truthy(d.name) ==> TopDonors(ds)[i].name == d.donorName)
              && (Truthy(TopDonors(ds)[i].date) <==> Truthy(d.timestamp) || Truthy(d.donatedOn))
              && (Truthy(d.timestamp) ==> TopDonors(ds)[i].date == d.timestamp)
              && (!Truthy(d.timestamp) ==> TopDonors(ds)[i].date == d.donatedOn)
  {
    var ranked := SortByAmount(NonCrypto(ds));
    var k := if |ranked| < 3 then |ranked| else 3;
    PrefixSubmultiset(ranked, k);
    forall d | d in Selected(ds)
      ensures d.paymentMethod != Crypto.Name()
    {
      assert d in multiset(NonCrypto(ds));
    }
  }

  lemma PrefixSubmultiset(r: seq<Donation>, k: nat)
    requires k <= |r|
    ensures multiset(r[..k]) <= multiset(r)
  {
    assert r == r[..k] + r[k..];
    assert multiset(r) == multiset(r[..k]) + multiset(r[k..]);
  }

  lemma PrefixDominates(ranked: seq<Donation>, k: nat)
    requires Descending(ranked) && k <= |ranked|
    ensures forall d, e :: d in ranked[..k] && e in multiset(ranked[k..]) ==> Value(e) <= Value(d)
  {
    forall d, e | d in ranked[..k] && e in multiset(ranked[k..])
      ensures Value(e) <= Value(d)
    {
      var i :| 0 <= i < k && ranked[..k][i] == d;
      assert e in ranked[k..];
      var j :| 0 <= j < |ranked| - k && ranked[k..][j] == e;
      assert ranked[i] == d && ranked[k + j] == e;
    }
  }

  /** The selected donations are the sorted copy's first `min(3, n)`. */
  lemma SelectedSplit(ds: seq<Donation>)
    ensures var ranked := SortByAmount(NonCrypto(ds));
            var k := |Selected(ds)|;
            && k == (if |ranked| < 3 then |ranked| else 3)
            && ranked == Selected(ds) + ranked[k..]
            && multiset(NonCrypto(ds)) - multiset(Selected(ds)) == multiset(ranked[k..])
  {
    var ranked := SortByAmount(NonCrypto(ds));
    var k := |Selected(ds)|;
    assert ranked == ranked[..k] + ranked[k..];
    assert multiset(ranked) == multiset(ranked[..k]) + multiset(ranked[k..]);
  }

  /** Every entry has a numeric amount, and the amounts never increase. */
  ghost predicate NonIncreasing(tops: seq<TopDonor>)
  {
    && (forall i :: 0 <= i < |tops| ==> tops[i].amount.Int?)
    && (forall i, j :: 0 <= i < j < |tops| ==> tops[j].amount.value <= tops[i].amount.value)
  }

  lemma PrefixRanked(r: seq<Donation>, k: nat)
    requires Priced(r) && Descending(r) && k <= |r|
    ensures Priced(r[..k]) && Descending(r[..k])
  {
    assert forall e :: e in r[..k] ==> e in r;
  }

  /** Projecting a priced, non-increasing sequence gives non-increasing numeric amounts. */
  lemma ProjectNonIncreasing(sel: seq<Donation>, tops: seq<TopDonor>)
    requires Priced(sel) && Descending(sel)
    requires |tops| == |sel| && forall i :: 0 <= i < |sel| ==> tops[i] == Project(sel[i])
    ensures NonIncreasing(tops)
  {
    forall i | 0 <= i < |tops|
      ensures tops[i].amount == Int(Value(sel[i]))
    {
      assert sel[i] in sel;
    }
  }

  /** When every non-crypto amount is present, `topDonors` is non-increasing in amount. */
  lemma TopDonorsDescending(ds: seq<Donation>)
    requires Priced(NonCrypto(ds))
    ensures NonIncreasing(TopDonors(ds))
  {
    var ranked := SortByAmount(NonCrypto(ds));
    var sel := Selected(ds);
    assert Priced(sel) && Descending(sel) by {
      SortDescending(NonCrypto(ds));
      SortPriced(NonCrypto(ds));
      SelectedSplit(ds);
      PrefixRanked(ranked, |sel|);
      assert sel == ranked[..|sel|];
    }
    ProjectNonIncreasing(sel, TopDonors(ds));
  }

  /**
   * When every non-crypto amount is present, no unselected non-crypto
   * donation has a larger amount than a selected one.
   */
  lemma TopDonorsAreLargest(ds: seq<Donation>)
    requires Priced(NonCrypto(ds))
    ensures forall d, e :: d in Selected(ds) && e in multiset(NonCrypto(ds)) - multiset(Selected(ds)) ==>
              Value(e) <= Value(d)
  {
    var ranked := SortByAmount(NonCrypto(ds));
    SortDescending(NonCrypto(ds));
    SelectedSplit(ds);
    PrefixDominates(ranked, |Selected(ds)|);
  }

  /**
   * When every non-crypto amount is present, donations of equal amount are
   * selected in collected order: for each amount, the selected donations of
   * that amount are a prefix of the non-crypto donations of that amount.
   */
  lemma TopDonorsStable(ds: seq<Donation>, v: int)
    requires Priced(NonCrypto(ds))
    ensures WithValue(Selected(ds), v) <= WithValue(NonCrypto(ds), v)
  {
    var ranked := SortByAmount(NonCrypto(ds));
    SelectedSplit(ds);
    SortStable(NonCrypto(ds), v);
    WithValueAppend(Selected(ds), ranked[|Selected(ds)|..], v);
  }
}
