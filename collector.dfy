/**
 * The collector: three fetched document lists, scanned cash, online, crypto,
 * each document kept when its path includes the year scope of the
 * organization and pushed onto `allDonations` with its channel tag.
 */
module Collector {
  import opened Wrappers
  import opened Donations
  import opened Paths

  /**
   * The object literal `{ id: doc.id, ...doc.data(), paymentMethod }`: a body
   * `id` overrides the document id, and the channel tag overrides any
   * `paymentMethod` of the body.
   */
  function Tag(doc: Document, channel: Channel): Donation
  {
    Donation(doc.body.id.GetOr(doc.id), doc.body.name, doc.body.donorName, doc.body.amount,
             doc.body.timestamp, doc.body.donatedOn, channel.Name())
  }

  /** The donations one channel's `forEach` pushes, in list order. */
  function Matching(docs: seq<Document>, scope: string, channel: Channel): (r: seq<Donation>)
    ensures |r| <= |docs|
    ensures forall d :: d in r ==> d.paymentMethod == channel.Name()
    decreases |docs|
  {
    if docs == [] then []
    else
      var last := docs[|docs| - 1];
      Matching(docs[..|docs| - 1], scope, channel)
        + (if Includes(last.path, scope) then [Tag(last, channel)] else [])
  }

  /** The positions, in increasing order, of the documents whose path includes `scope`. */
  function Positions(docs: seq<Document>, scope: string): seq<nat>
    decreases |docs|
  {
    if docs == [] then []
    else
      Positions(docs[..|docs| - 1], scope)
        + (if Includes(docs[|docs| - 1].path, scope) then [|docs| - 1] else [])
  }

  /** `allDonations` once all three lists are scanned. */
  function Collected(ngoId: string, year: string,
                     cash: seq<Document>, online: seq<Document>, crypto: seq<Document>): seq<Donation>
  {
    var scope := Scope(ngoId, year);
    Matching(cash, scope, Cash) + Matching(online, scope, Online) + Matching(crypto, scope, Crypto)
  }

  /** One channel's `forEach`: push every document of `docs` whose path includes `scope`. */
  method CollectChannel(collected: seq<Donation>, docs: seq<Document>, scope: string, channel: Channel)
    returns (r: seq<Donation>)
    ensures r == collected + Matching(docs, scope, channel)
  {
    r := collected;
    var i := 0;
    while i < |docs|
      invariant 0 <= i <= |docs|
      invariant r == collected + Matching(docs[..i], scope, channel)
    {
      var doc := docs[i];
      if Includes(doc.path, scope) {
        r := r + [Tag(doc, channel)];
      }
      assert docs[..i + 1][..i] == docs[..i];
      i := i + 1;
    }
    assert docs[..|docs|] == docs;
  }

  /** The tag is the channel's name whatever the body says; every other field comes from the document. */
  lemma TagFields(doc: Document, channel: Channel, bodyMethod: Option<string>)
    ensures Tag(doc.(body := doc.body.(paymentMethod := bodyMethod)), channel) == Tag(doc, channel)
    ensures Tag(doc, channel).paymentMethod == channel.Name()
    ensures Tag(doc, channel).id == if doc.body.id.Some? then doc.body.id.value else doc.id
    ensures Tag(doc, channel).amount == doc.body.amount
  {
  }

  /**
   * The channel's donations are exactly the tagged documents at `Positions`:
   * a document is kept iff its path includes the scope, and kept documents
   * keep their list order.
   */
  lemma {:induction false} MatchingPositions(docs: seq<Document>, scope: string, channel: Channel)
    ensures |Matching(docs, scope, channel)| == |Positions(docs, scope)|
    ensures forall k :: 0 <= k < |Positions(docs, scope)| ==>
              Positions(docs, scope)[k] < |docs|
              && Matching(docs, scope, channel)[k] == Tag(docs[Positions(docs, scope)[k]], channel)
    ensures forall k, l :: 0 <= k < l < |Positions(docs, scope)| ==>
              Positions(docs, scope)[k] < Positions(docs, scope)[l]
    ensures forall j :: 0 <= j < |docs| ==> (j in Positions(docs, scope) <==> Includes(docs[j].path, scope))
    decreases |docs|
  {
    if docs != [] {
      var init := docs[..|docs| - 1];
      MatchingPositions(init, scope, channel);
      forall j | 0 <= j < |init|
        ensures docs[j] == init[j]
      {
      }
    }
  }

  /** Scanning two lists one after the other collects the two lists' donations one after the other. */
  lemma {:induction false} MatchingAppend(a: seq<Document>, b: seq<Document>, scope: string, channel: Channel)
    ensures Matching(a + b, scope, channel) == Matching(a, scope, channel) + Matching(b, scope, channel)
    decreases |b|
  {
    if b != [] {
      var init := b[..|b| - 1];
      assert (a + b)[..|a + b| - 1] == a + init;
      MatchingAppend(a, init, scope, channel);
    } else {
      assert a + b == a;
    }
  }

  /**
   * The collected sequence is grouped by channel in the fixed order cash,
   * online, crypto: the first block is tagged Cash, the next Online, the last
   * Crypto.
   */
  lemma CollectedGrouped(ngoId: string, year: string,
                         cash: seq<Document>, online: seq<Document>, crypto: seq<Document>)
    ensures var scope := Scope(ngoId, year);
            var nCash, nOnline := |Matching(cash, scope, Cash)|, |Matching(online, scope, Online)|;
            var all := Collected(ngoId, year, cash, online, crypto);
            && |all| == nCash + nOnline + |Matching(crypto, scope, Crypto)|
            && (forall k :: 0 <= k < nCash ==> all[k].paymentMethod == "Cash")
            && (forall k :: nCash <= k < nCash + nOnline ==> all[k].paymentMethod == "Online")
            && (forall k :: nCash + nOnline <= k < |all| ==> all[k].paymentMethod == "Crypto")
  {
    var scope := Scope(ngoId, year);
    BlocksTagged(Matching(cash, scope, Cash), Matching(online, scope, Online), Matching(crypto, scope, Crypto));
  }

  lemma BlocksTagged(c: seq<Donation>, o: seq<Donation>, y: seq<Donation>)
    requires forall d :: d in c ==> d.paymentMethod == "Cash"
    requires forall d :: d in o ==> d.paymentMethod == "Online"
    requires forall d :: d in y ==> d.paymentMethod == "Crypto"
    ensures var all := c + o + y;
            && (forall k :: 0 <= k < |c| ==> all[k].paymentMethod == "Cash")
            && (forall k :: |c| <= k < |c| + |o| ==> all[k].paymentMethod == "Online")
            && (forall k :: |c| + |o| <= k < |all| ==> all[k].paymentMethod == "Crypto")
  {
    var all := c + o + y;
    forall k | 0 <= k < |all|
      ensures all[k].paymentMethod == if k < |c| then "Cash" else if k < |c| + |o| then "Online" else "Crypto"
    {
      if k < |c| {
        assert all[k] == c[k] && c[k] in c;
      } else if k < |c| + |o| {
        assert all[k] == o[k - |c|] && o[k - |c|] in o;
      } else {
        assert all[k] == y[k - |c| - |o|] && y[k - |c| - |o|] in y;
      }
    }
  }

  /**
   * A document whose path starts with the scope is kept, whatever follows:
   * a cash document stored under another channel's segment is kept and
   * tagged Cash.
   */
  lemma ScopedDocumentKept(ngoId: string, year: string, rest: string, id: string, body: Body, channel: Channel)
    ensures var doc := Document(id, Scope(ngoId, year) + rest, body);
            Matching([doc], Scope(ngoId, year), channel) == [Tag(doc, channel)]
  {
    var scope := Scope(ngoId, year);
    IncludesInfix("", scope, rest);
    assert "" + scope + rest == scope + rest;
    var doc := Document(id, scope + rest, body);
    assert [doc][..0] == [];
  }
}
