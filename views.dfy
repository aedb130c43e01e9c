/**
 * The per-channel lists the component renders: `donations.filter(d =>
 * d.paymentMethod === 'Cash')` and the same for Online and Crypto.
 */
module Views {
  import opened Donations
  import opened Paths
  import opened Collector
  import opened Summarizer

  /** `cashDonations`. */
  function CashDonations(ds: seq<Donation>): seq<Donation>
  {
    WithMethod(ds, Cash.Name())
  }

  /** `onlineDonations`. */
  function OnlineDonations(ds: seq<Donation>): seq<Donation>
  {
    WithMethod(ds, Online.Name())
  }

  /** `cryptoDonations`. */
  function CryptoDonations(ds: seq<Donation>): seq<Donation>
  {
    WithMethod(ds, Crypto.Name())
  }

  /** Every donation of `ds` carries one of the three channel tags. */
  ghost predicate ChannelTagged(ds: seq<Donation>)
  {
    forall d :: d in ds ==> d.paymentMethod == "Cash" || d.paymentMethod == "Online" || d.paymentMethod == "Crypto"
  }

  /** Everything the collector produces carries a channel tag. */
  lemma CollectedTagged(ngoId: string, year: string,
                        cash: seq<Document>, online: seq<Document>, crypto: seq<Document>)
    ensures ChannelTagged(Collected(ngoId, year, cash, online, crypto))
  {
  }

  /** The views of a one-element list. */
  lemma ViewsOfOne(d: Donation, m: string)
    ensures WithMethod([d], m) == if d.paymentMethod == m then [d] else []
    ensures WithoutMethod([d], m) == if d.paymentMethod != m then [d] else []
  {
    assert [d][..0] == [];
  }

  /** The three views split a channel-tagged list: together they hold each donation exactly once. */
  lemma {:induction false} ViewsPartition(ds: seq<Donation>)
    requires ChannelTagged(ds)
    ensures multiset(CashDonations(ds)) + multiset(OnlineDonations(ds)) + multiset(CryptoDonations(ds)) == multiset(ds)
    decreases |ds|
  {
    if ds != [] {
      var init, last := ds[..|ds| - 1], ds[|ds| - 1];
      assert ds == init + [last];
      assert forall d :: d in init ==> d in ds;
      assert last in ds;
      ViewsPartition(init);
      PartitionStep(init, last);
    }
  }

  lemma PartitionStep(init: seq<Donation>, last: Donation)
    requires last.paymentMethod == "Cash" || last.paymentMethod == "Online" || last.paymentMethod == "Crypto"
    requires multiset(CashDonations(init)) + multiset(OnlineDonations(init)) + multiset(CryptoDonations(init)) == multiset(init)
    ensures var ds := init + [last];
            multiset(CashDonations(ds)) + multiset(OnlineDonations(ds)) + multiset(CryptoDonations(ds)) == multiset(ds)
  {
    assert multiset(init + [last]) == multiset(init) + multiset{last};
    ChannelSnoc(init, last, "Cash");
    ChannelSnoc(init, last, "Online");
    ChannelSnoc(init, last, "Crypto");
  }

  /** Appending one donation adds it to the view of its own channel only. */
  lemma ChannelSnoc(init: seq<Donation>, last: Donation, m: string)
    ensures multiset(WithMethod(init + [last], m))
         == multiset(WithMethod(init, m)) + (if last.paymentMethod == m then multiset{last} else multiset{})
  {
    WithMethodAppend(init, [last], m);
    ViewsOfOne(last, m);
  }

  /** A channel's documents all carry that channel's tag, so its view keeps them all. */
  lemma {:induction false} ViewOfMatching(docs: seq<Document>, scope: string, channel: Channel, m: string)
    ensures WithMethod(Matching(docs, scope, channel), m) == if m == channel.Name() then Matching(docs, scope, channel) else []
    decreases |docs|
  {
    if docs != [] {
      var init, last := docs[..|docs| - 1], docs[|docs| - 1];
      var kept := if Includes(last.path, scope) then [Tag(last, channel)] else [];
      ViewOfMatching(init, scope, channel, m);
      WithMethodAppend(Matching(init, scope, channel), kept, m);
      if m != channel.Name() {
        ghost var none: seq<Donation> := [];
        assert none + none == none;
      }
    }
  }

  /**
   * Each view of the collected donations is exactly what that channel's
   * loop collected: `cashDonations` is the kept cash documents, in order,
   * and likewise for online and crypto.
   */
  lemma ViewsOfCollected(ngoId: string, year: string,
                         cash: seq<Document>, online: seq<Document>, crypto: seq<Document>)
    ensures var all, scope := Collected(ngoId, year, cash, online, crypto), Scope(ngoId, year);
            && CashDonations(all) == Matching(cash, scope, Cash)
            && OnlineDonations(all) == Matching(online, scope, Online)
            && CryptoDonations(all) == Matching(crypto, scope, Crypto)
  {
    var scope := Scope(ngoId, year);
    var c, o, y := Matching(cash, scope, Cash), Matching(online, scope, Online), Matching(crypto, scope, Crypto);
    forall channel: Channel
      ensures WithMethod(c + o + y, channel.Name()) == WithMethod(c, channel.Name()) + WithMethod(o, channel.Name()) + WithMethod(y, channel.Name())
      ensures WithMethod(c, channel.Name()) == if channel == Cash then c else []
      ensures WithMethod(o, channel.Name()) == if channel == Online then o else []
      ensures WithMethod(y, channel.Name()) == if channel == Crypto then y else []
    {
      WithMethodAppend(c + o, y, channel.Name());
      WithMethodAppend(c, o, channel.Name());
      ViewOfMatching(cash, scope, Cash, channel.Name());
      ViewOfMatching(online, scope, Online, channel.Name());
      ViewOfMatching(crypto, scope, Crypto, channel.Name());
    }
    assert [] + o + [] == o;
    assert c + [] + [] == c;
    assert [] + [] + y == y;
  }

  /** On channel-tagged donations, `total` is the cash view's sum plus the online view's sum. */
  lemma {:induction false} TotalOfViews(ds: seq<Donation>)
    requires ChannelTagged(ds)
    ensures Total(ds) == SumOf(CashDonations(ds)) + SumOf(OnlineDonations(ds))
    decreases |ds|
  {
    if ds != [] {
      var init, last := ds[..|ds| - 1], ds[|ds| - 1];
      assert ds == init + [last];
      assert forall d :: d in init ==> d in ds;
      assert last in ds;
      TotalOfViews(init);
      AppendSums(init, last);
      ViewsOfOne(last, "Cash");
      ViewsOfOne(last, "Online");
      ViewsOfOne(last, "Crypto");
    }
  }

  /** Each of the three sums of `init + [last]` is that of `init` plus that of `[last]`. */
  lemma AppendSums(init: seq<Donation>, last: Donation)
    ensures Total(init + [last]) == Total(init) + SumOf(WithoutMethod([last], "Crypto"))
    ensures SumOf(CashDonations(init + [last])) == SumOf(CashDonations(init)) + SumOf(WithMethod([last], "Cash"))
    ensures SumOf(OnlineDonations(init + [last])) == SumOf(OnlineDonations(init)) + SumOf(WithMethod([last], "Online"))
  {
    WithMethodAppend(init, [last], "Crypto");
    WithMethodAppend(init, [last], "Cash");
    WithMethodAppend(init, [last], "Online");
    SumOfAppend(WithoutMethod(init, "Crypto"), WithoutMethod([last], "Crypto"));
    SumOfAppend(WithMethod(init, "Cash"), WithMethod([last], "Cash"));
    SumOfAppend(WithMethod(init, "Online"), WithMethod([last], "Online"));
  }
}
