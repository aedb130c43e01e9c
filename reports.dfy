/**
 * The `DonationReports` component's state and its `fetchDonations` effect:
 * the `donations` and `donationStats` cells, and the all-or-nothing update
 * that fills both from the three fetched channel lists.
 */
module Reports {
  import opened Wrappers
  import opened Donations
  import opened Paths
  import opened Collector
  import opened Summarizer
  import opened Ranking
  import opened Views

  /** The `{ total, breakdown, topDonors }` object held in `donationStats`. */
  datatype DonationStats = DonationStats(total: int, breakdown: seq<Entry>, topDonors: seq<TopDonor>)

  /** The initial `donationStats`. */
  const InitialStats := DonationStats(0, [], [])

  /** The stats `fetchDonations` computes from the collected donations. */
  function Summarize(ds: seq<Donation>): DonationStats
  {
    DonationStats(Total(ds), BreakdownOf(ds), TopDonors(ds))
  }

  /** The outcome of one `getDocs(collectionGroup(db, channel))`: its documents, or a thrown error. */
  datatype Fetched = Docs(docs: seq<Document>) | Failed

  /** `ngoId = auth.currentUser?.uid` passes the `!ngoId` guard: present and non-empty. */
  predicate SignedIn(uid: Option<string>)
  {
    uid.Some? && uid.value != ""
  }

  /** Every step of `fetchDonations` succeeds: an organization is signed in and all three fetches return. */
  predicate Completes(uid: Option<string>, cash: Fetched, online: Fetched, crypto: Fetched)
  {
    SignedIn(uid) && cash.Docs? && online.Docs? && crypto.Docs?
  }

  /**
   * The stats agree with each other: the breakdown accounts for every
   * donation, and the total is the breakdown less the crypto donations.
   */
  lemma StatsConsistent(ds: seq<Donation>)
    ensures EntriesSum(Summarize(ds).breakdown) == SumOf(ds)
    ensures Summarize(ds).total == EntriesSum(Summarize(ds).breakdown) - SumOf(CryptoDonations(ds))
  {
    BreakdownTotal(ds);
    TotalExcludesCrypto(ds);
  }

  /** A worked report for organization "n" and year "24": a cash document of "n" ... */
  const ScenarioBody := Body(None, Some("Asha"), None, Num(500), None, Some("2024-03-01"), Some("Card"))
  /** ... a cash document of organization "m", which must be dropped ... */
  const KeptCash := Document("k1", Scope("n", "24") + "/w1/cash/k1", ScenarioBody)
  const OtherOrg := Document("o1", Scope("m", "24") + "/w1/cash/o1", ScenarioBody.(amount := Num(900)))
  /** ... and a crypto document of "n" filed under an online segment, which is kept. */
  const MisfiledCrypto := Document("c1", Scope("n", "24") + "/w1/online/o1/crypto/c1", ScenarioBody.(name := None, amount := Num(700)))

  /**
   * In the worked report the document of "m" is dropped, and the crypto
   * document is kept with its Crypto tag although its path names another
   * channel; the body's own "Card" method is overwritten.
   *
   * The scenario lemmas take the organization, the year and the document
   * lists as parameters fixed by `requires` rather than naming the constants
   * in their bodies: the solver then treats them as opaque values and does
   * not unfold the recursive path test over every literal character.
   */
  lemma ScenarioCollected(ngoId: string, year: string, cash: seq<Document>, online: seq<Document>, crypto: seq<Document>)
    requires ngoId == "n" && year == "24"
    requires cash == [KeptCash, OtherOrg] && online == [] && crypto == [MisfiledCrypto]
    ensures Collected(ngoId, year, cash, online, crypto) == [Tag(KeptCash, Cash), Tag(MisfiledCrypto, Crypto)]
    ensures Tag(KeptCash, Cash).paymentMethod == "Cash" && Tag(MisfiledCrypto, Crypto).paymentMethod == "Crypto"
  {
    var scope := Scope(ngoId, year);
    ScenarioCash(scope, cash);
    ScenarioCrypto(scope, crypto);
    ScenarioJoin(Matching(cash, scope, Cash), Matching(online, scope, Online), Matching(crypto, scope, Crypto));
  }

  lemma ScenarioJoin(c: seq<Donation>, o: seq<Donation>, y: seq<Donation>)
    requires c == [Tag(KeptCash, Cash)] && o == [] && y == [Tag(MisfiledCrypto, Crypto)]
    ensures c + o + y == [Tag(KeptCash, Cash), Tag(MisfiledCrypto, Crypto)]
  {
  }

  lemma ScenarioCash(scope: string, cash: seq<Document>)
    requires scope == Scope("n", "24") && cash == [KeptCash, OtherOrg]
    ensures Matching(cash, scope, Cash) == [Tag(KeptCash, Cash)]
  {
    ScenarioCashKept(scope);
    ScenarioOtherExcluded(scope);
    MatchingAppend([KeptCash], [OtherOrg], scope, Cash);
    assert [KeptCash] + [OtherOrg] == cash;
  }

  lemma ScenarioCashKept(scope: string)
    requires scope == Scope("n", "24")
    ensures Matching([KeptCash], scope, Cash) == [Tag(KeptCash, Cash)]
  {
    ScopedDocumentKept("n", "24", "/w1/cash/k1", KeptCash.id, KeptCash.body, Cash);
  }

  lemma ScenarioOtherExcluded(scope: string)
    requires scope == Scope("n", "24")
    ensures Matching([OtherOrg], scope, Cash) == []
  {
    MissingFirstChar("m" + "/" + "24" + "/w1/cash/o1", "donations/");
    OtherOrgExcluded("n", "24", "m", "24", "/w1/cash/o1");
    assert [OtherOrg][..0] == [];
  }

  lemma ScenarioCrypto(scope: string, crypto: seq<Document>)
    requires scope == Scope("n", "24") && crypto == [MisfiledCrypto]
    ensures Matching(crypto, scope, Crypto) == [Tag(MisfiledCrypto, Crypto)]
  {
    ScopedDocumentKept("n", "24", "/w1/online/o1/crypto/c1", MisfiledCrypto.id, MisfiledCrypto.body, Crypto);
  }

  /**
   * The worked report's stats: the total leaves the crypto donation out, the
   * breakdown lists both methods in collected order, and the single top
   * donor's date falls back to `donatedOn`.
   */
  lemma ScenarioStats(all: seq<Donation>)
    requires all == [Tag(KeptCash, Cash), Tag(MisfiledCrypto, Crypto)]
    ensures Summarize(all) == DonationStats(500, [Entry("Cash", 500), Entry("Crypto", 700)],
                                            [TopDonor(Some("Asha"), Int(500), Some("2024-03-01"))])
  {
    var cash, crypto := Tag(KeptCash, Cash), Tag(MisfiledCrypto, Crypto);
    assert all == [cash] + [crypto];
    ScenarioTotal(cash, crypto);
    ScenarioBreakdown(cash, crypto);
    assert Selected(all) == [cash];
  }

  lemma ScenarioTotal(cash: Donation, crypto: Donation)
    requires cash == Tag(KeptCash, Cash) && crypto == Tag(MisfiledCrypto, Crypto)
    ensures NonCrypto([cash] + [crypto]) == [cash] && Total([cash] + [crypto]) == 500
  {
    WithMethodAppend([cash], [crypto], "Crypto");
    ViewsOfOne(cash, "Crypto");
    ViewsOfOne(crypto, "Crypto");
    SumOfSnoc([], cash);
    assert [] + [cash] == [cash];
  }

  lemma ScenarioBreakdown(cash: Donation, crypto: Donation)
    requires cash == Tag(KeptCash, Cash) && crypto == Tag(MisfiledCrypto, Crypto)
    ensures BreakdownOf([cash] + [crypto]) == [Entry("Cash", 500), Entry("Crypto", 700)]
  {
    var all := [cash] + [crypto];
    assert [] + [cash] == [cash];
    KeysSnoc([cash], crypto);
    KeysSnoc([], cash);
    FirstOccurrencesSnoc([], "Cash");
    FirstOccurrencesSnoc(["Cash"], "Crypto");
    assert FirstOccurrences(Keys(all)) == ["Cash", "Crypto"];
    MethodSumSnoc([], cash, "Cash");
    MethodSumSnoc([], cash, "Crypto");
    MethodSumSnoc([cash], crypto, "Cash");
    MethodSumSnoc([cash], crypto, "Crypto");
    EntriesForAt(all, ["Cash", "Crypto"]);
  }

  class DonationReports {
    /** The `donations` state cell. */
    var donations: seq<Donation>
    /** The `donationStats` state cell. */
    var stats: DonationStats

    /** The `useState` initial values. */
    constructor()
      ensures donations == [] && stats == InitialStats
    {
      donations := [];
      stats := InitialStats;
    }

    /**
     * `fetchDonations` for the organization `uid` and the year `year`. A
     * missing organization or any failed fetch leaves both cells as they
     * were; otherwise `donations` becomes the collected list and `stats`
     * its summary.
     */
    method FetchDonations(uid: Option<string>, year: string, cash: Fetched, online: Fetched, crypto: Fetched)
      modifies this
      ensures !Completes(uid, cash, online, crypto) ==> donations == old(donations) && stats == old(stats)
      ensures Completes(uid, cash, online, crypto) ==>
                donations == Collected(uid.value, year, cash.docs, online.docs, crypto.docs)
      ensures Completes(uid, cash, online, crypto) ==> stats == Summarize(donations)
    {
      if !SignedIn(uid) {
        return;
      }
      var ngoId := uid.value;
      var scope := Scope(ngoId, year);
      var all: seq<Donation> := [];
      if cash.Failed? {
        return;
      }
      all := CollectChannel(all, cash.docs, scope, Cash);
      if online.Failed? {
        return;
      }
      all := CollectChannel(all, online.docs, scope, Online);
      if crypto.Failed? {
        return;
      }
      all := CollectChannel(all, crypto.docs, scope, Crypto);
      assert all == Collected(ngoId, year, cash.docs, online.docs, crypto.docs);
      donations := all;
      var total := Total(all);
      var breakdown := Breakdown(all);
      var topDonors := TopDonors(all);
      stats := DonationStats(total, breakdown, topDonors);
    }
  }
}
