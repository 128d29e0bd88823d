/**
 * The smaller handlers, each in full: exactly when it succeeds and exactly what it leaves, told from the rows.
 */
module CampaignHandlers {
  import opened Common
  import opened Ledger
  import opened Delivery
  import opened Campaigns
  import opened CampaignTerms
  import Quotes

  // ---- The brief ----

  /** A campaign starts as a draft of its brief: no price, no reach, nothing counted, and no row in any table. */
  lemma CreatedInFull(id: nat, client: nat, slotsTotal: nat, recurring: bool, posts: nat, startsAt: Option<int>,
                      endsAt: Option<int>)
    ensures var c := NewCampaign(id, client, slotsTotal, recurring, posts, startsAt, endsAt);
            && c.id == id && c.client == client && c.status == Draft && c.recurring == recurring
            && c.startsAt == startsAt && c.endsAt == endsAt && c.slotsTotal == slotsTotal
            && (if recurring then 2 <= c.posts && (c.posts == posts || posts < 2 == c.posts) else c.posts == 1)
            && c.price == None && c.escrow == None && c.target == 0 && c.slotsFilled == 0
            && c.slots == [] && c.offers == [] && c.assignments == [] && c.submissions == [] && c.noShows == []
  {
  }

  predicate Editing(c: Campaign) { c.status == Draft || c.status == Quoted }

  function Given<T>(o: Option<T>, before: T): T { match o case None => before case Some(x) => x }

  /** The brief of c' is that of c with the edits made: what is not given stays. */
  predicate BriefEdited(c: Campaign, c': Campaign, e: Edits)
  {
    && c'.slotsTotal == Given(e.slotsTotal, c.slotsTotal) && c'.recurring == Given(e.recurring, c.recurring)
    && c'.startsAt == Given(e.startsAt, c.startsAt) && c'.endsAt == Given(e.endsAt, c.endsAt)
    && (e.recurring == None && e.posts == None ==> c'.posts == c.posts)
    && (e.recurring != None || e.posts != None ==>
          (if !c'.recurring then c'.posts == 1
           else 2 <= c'.posts && (c'.posts == Given(e.posts, c.posts) || Given(e.posts, c.posts) < 2 == c'.posts)))
  }

  predicate DatesMakeSense(c: Campaign)
  {
    && (c.startsAt != None && c.endsAt != None ==> c.startsAt.value < c.endsAt.value)
    && (1 < c.posts ==> c.endsAt != None)
  }

  /** Nothing but the brief, the status and the price differs. */
  predicate OnlyBrief(c: Campaign, c': Campaign)
  {
    c' == c.(slotsTotal := c'.slotsTotal, recurring := c'.recurring, startsAt := c'.startsAt, endsAt := c'.endsAt,
             posts := c'.posts, status := c'.status, price := c'.price)
  }

  /**
   * An edit goes through exactly on a draft or a quoted campaign whose dates still make sense with it; any edit at all
   * costs a quoted campaign its quote and its price.
   */
  lemma UpdateInFull(w: World, e: Edits)
    ensures var (c, r) := (w.campaign, Update(w, e));
            var w' := r.0;
            && w'.books == w.books && OnlyBrief(c, w'.campaign)
            && (r.1.Success? ==>
                  && Editing(c) && BriefEdited(c, w'.campaign, e) && DatesMakeSense(w'.campaign)
                  && (if c.status == Quoted && e != Edits(None, None, None, None, None, false)
                      then w'.campaign.status == Draft && w'.campaign.price == None
                      else w'.campaign.status == c.status && w'.campaign.price == c.price))
            && (!r.1.Success? ==>
                  && w' == w
                  && (Editing(c) ==>
                        forall x: Campaign :: OnlyBrief(c, x) && BriefEdited(c, x, e) ==> !DatesMakeSense(x)))
  {
    var c := w.campaign;
    forall x: Campaign | OnlyBrief(c, x) && BriefEdited(c, x, e)
      ensures x.(status := c.status, price := c.price) == Edited(c, e).(status := c.status, price := c.price)
    {
    }
  }

  /** New targeting costs a quoted campaign its quote and its price, and is refused once it is past that. */
  lemma TargetingInFull(w: World)
    ensures var (c, r) := (w.campaign, SetTargeting(w));
            && (r.1.Success? <==> Editing(c))
            && r.0 == w.(campaign := if c.status == Quoted then c.(status := Draft, price := None) else c)
  {
  }

  /** A quote is taken exactly on a draft or a quoted campaign, and when one can be given. */
  lemma QuotingInFull(w: World, exactPrice: Option<int>, terms: Quotes.Terms)
    ensures var (c, r) := (w.campaign, TakeQuote(w, exactPrice, terms));
            var q := Quotes.QuoteFor(c.posts, if c.slotsTotal < 0 then 0 else c.slotsTotal, exactPrice, terms);
            && (r.1.Success? <==> Editing(c) && q.Ok?)
            && (!r.1.Success? ==> r.0 == w)
            && (r.1.Success? ==>
                  var c' := r.0.campaign;
                  && r.0.books == w.books && |c'.slots| == q.value.slots
                  && (forall k :: 0 <= k < |c'.slots| ==> c'.slots[k] == Slot(Open, q.value.unit, c.posts))
                  && c' == c.(status := Quoted, price := Some(q.value.price), slotsTotal := q.value.slots,
                              target := q.value.target, slots := c'.slots))
  {
  }

  // ---- Review ----

  /** Review moves a campaign exactly from UNDER_REVIEW to LIVE or NEEDS_CHANGES, and from there back to review. */
  lemma ReviewInFull(w: World)
    ensures var c := w.campaign;
            && Step(w, DoApproveCampaign) == w.(campaign := if c.status == UnderReview then c.(status := Live) else c)
            && Step(w, DoRejectCampaign(false))
               == w.(campaign := if c.status == UnderReview then c.(status := ChangesNeeded) else c)
            && Step(w, DoResubmit) == w.(campaign := if c.status == ChangesNeeded then c.(status := UnderReview) else c)
  {
  }

  /**
   * Turning a campaign down for good is refused exactly outside review, or when the books refuse the refund. One that
   * was never paid for ends without money moving; any other ends with its price sent back to the client's wallet.
   */
  lemma TerminalRejectionInFull(w: World)
    ensures var (c, r) := (w.campaign, RejectCampaign(w, true));
            && (c.status != UnderReview ==> r == (w, WrongState))
            && (c.status == UnderReview && (c.escrow == None || c.price == None || c.price == Some(0)) ==>
                  r == (w.(campaign := c.(status := CalledOff)), Success))
            && (c.status == UnderReview && c.escrow != None && c.price != None && c.price != Some(0) ==>
                  var (b, wallet) := GetOrCreate(w.books, ClientWallet, c.client);
                  var (b', o) := Ledger.Post(b, Posting(CampaignRefund, CampaignRef(c.id), RefundKey(c.id),
                                                        [Entry(c.escrow.value, Debit, c.price.value),
                                                         Entry(wallet, Credit, c.price.value)]));
                  && r.0.books == b' && (r.1.Success? <==> o.Posted?)
                  && r.0.campaign == if o.Posted? then c.(status := CalledOff) else c)
  {
  }

  // ---- Offers ----

  /** Where the batch stops: at the first promoter without a channel, or at the end. */
  predicate StopsAt(promoters: seq<nat>, qualified: set<nat>, k: nat)
  {
    && k <= |promoters| && (forall i :: 0 <= i < k ==> promoters[i] in qualified)
    && (k < |promoters| ==> promoters[k] !in qualified)
  }

  predicate Offered(offers: seq<Offer>, promoter: nat)
  {
    exists i :: 0 <= i < |offers| && offers[i].promoter == promoter
  }

  /** p comes in the list, and q not before it. */
  predicate Before(promoters: seq<nat>, p: nat, q: nat)
  {
    exists x :: 0 <= x < |promoters| && promoters[x] == p && q !in promoters[..x + 1]
  }

  lemma BeforeCons(first: nat, rest: seq<nat>, p: nat, q: nat)
    requires q != first && (p == first || Before(rest, p, q))
    ensures Before([first] + rest, p, q)
  {
    var all := [first] + rest;
    if p == first {
      assert all[..1] == [first];
      assert all[0] == p && q !in all[..0 + 1];
    } else {
      var x :| 0 <= x < |rest| && rest[x] == p && q !in rest[..x + 1];
      assert all[x + 1] == p && all[..x + 2] == [first] + rest[..x + 1];
      assert q !in all[..(x + 1) + 1];
    }
  }

  /** The batch added offers to exactly these promoters, one each, in their order, on its terms. */
  ghost predicate AddsOffers(c: Campaign, c': Campaign, promoters: seq<nat>, terms: OfferTerms)
  {
    && c' == c.(offers := c'.offers) && c.offers <= c'.offers
    && (forall p: nat :: Offered(c'.offers, p) <==> Offered(c.offers, p) || p in promoters)
    && (forall i :: |c.offers| <= i < |c'.offers| ==>
          && SentOn(c'.offers[i], UnitOf(c), terms) && c'.offers[i].status == Sent
          && !Offered(c'.offers[..i], c'.offers[i].promoter))
    && (forall i, j :: |c.offers| <= i < j < |c'.offers| ==>
          Before(promoters, c'.offers[i].promoter, c'.offers[j].promoter))
  }

  lemma OfferedSnoc(offers: seq<Offer>, o: Offer, p: nat)
    ensures Offered(offers + [o], p) <==> Offered(offers, p) || o.promoter == p
  {
    assert (offers + [o])[|offers|] == o;
    assert forall i :: 0 <= i < |offers| ==> (offers + [o])[i] == offers[i];
  }

  lemma BatchStep(c: Campaign, c1: Campaign, c': Campaign, p: nat, rest: seq<nat>, terms: OfferTerms)
    requires !Offered(c.offers, p) && c1 == c.(offers := c.offers + [NewOffer(c, p, terms)])
    requires AddsOffers(c1, c', rest, terms)
    ensures AddsOffers(c, c', [p] + rest, terms)
  {
    forall q: nat ensures Offered(c'.offers, q) <==> Offered(c.offers, q) || q in [p] + rest {
      OfferedSnoc(c.offers, NewOffer(c, p, terms), q);
    }
    forall i | |c.offers| <= i < |c'.offers|
      ensures SentOn(c'.offers[i], UnitOf(c), terms) && c'.offers[i].status == Sent
              && !Offered(c'.offers[..i], c'.offers[i].promoter)
    {
      if i == |c.offers| {
        assert c'.offers[i] == c1.offers[i] && c'.offers[..i] == c.offers;
      }
    }
    assert c'.offers[|c.offers|] == c1.offers[|c.offers|];
    forall i, j | |c.offers| <= i < j < |c'.offers|
      ensures Before([p] + rest, c'.offers[i].promoter, c'.offers[j].promoter)
    {
      NotOfferedBefore(c'.offers, |c.offers|, j);
      BeforeCons(p, rest, c'.offers[i].promoter, c'.offers[j].promoter);
    }
  }

  lemma NotOfferedBefore(offers: seq<Offer>, i: nat, j: nat)
    requires i < j < |offers| && !Offered(offers[..j], offers[j].promoter)
    ensures offers[i].promoter != offers[j].promoter
  {
    assert offers[..j][i] == offers[i];
  }

  lemma BatchSkips(c: Campaign, c': Campaign, p: nat, rest: seq<nat>, terms: OfferTerms)
    requires Offered(c.offers, p) && AddsOffers(c, c', rest, terms)
    ensures AddsOffers(c, c', [p] + rest, terms)
  {
    var k :| 0 <= k < |c.offers| && c.offers[k].promoter == p;
    forall i, j | |c.offers| <= i < j < |c'.offers|
      ensures Before([p] + rest, c'.offers[i].promoter, c'.offers[j].promoter)
    {
      assert c'.offers[k] == c.offers[k];
      NotOfferedBefore(c'.offers, k, j);
      BeforeCons(p, rest, c'.offers[i].promoter, c'.offers[j].promoter);
    }
  }

  lemma {:induction false} BatchInFull(c: Campaign, promoters: seq<nat>, terms: OfferTerms) returns (k: nat)
    ensures StopsAt(promoters, terms.qualified, k)
    ensures AddsOffers(c, OfferEach(c, promoters, terms).0, promoters[..k], terms)
    ensures OfferEach(c, promoters, terms).1.Success? <==> k == |promoters|
    decreases |promoters|
  {
    if promoters == [] || promoters[0] !in terms.qualified {
      k := 0;
    } else {
      var p, rest := promoters[0], promoters[1..];
      assert AlreadyOffered(c, p) <==> Offered(c.offers, p);
      var c1 := if AlreadyOffered(c, p) then c else c.(offers := c.offers + [NewOffer(c, p, terms)]);
      var n := BatchInFull(c1, rest, terms);
      k := n + 1;
      assert promoters[..k] == [p] + rest[..n];
      assert forall i :: 0 <= i < n ==> promoters[i + 1] == rest[i];
      if AlreadyOffered(c, p) {
        BatchSkips(c, OfferEach(c, promoters, terms).0, p, rest[..n], terms);
      } else {
        BatchStep(c, c1, OfferEach(c, promoters, terms).0, p, rest[..n], terms);
      }
    }
  }

  /**
   * A batch offers a live campaign with slots to the promoters of the list up to the first without a channel, each once
   * and none who was offered it before; it succeeds when nobody stopped it.
   */
  lemma SendingInFull(w: World, promoters: seq<nat>, terms: OfferTerms) returns (k: nat)
    ensures var (c, r) := (w.campaign, SendOffers(w, promoters, terms));
            && StopsAt(promoters, terms.qualified, k)
            && (r.1.Success? <==> c.status == Live && c.slots != [] && promoters != [] && k == |promoters|)
            && (if c.status == Live && c.slots != []
                then r.0.books == w.books && AddsOffers(c, r.0.campaign, promoters[..k], terms)
                else r.0 == w)
  {
    k := BatchInFull(w.campaign, promoters, terms);
  }

  /** A promoter may decline an offer of their own that stands; housekeeping expires exactly those past their time. */
  lemma OffersInFull(w: World, offer: nat, promoter: nat, now: int)
    ensures var c := w.campaign;
            var r := Decline(w, offer, promoter);
            && (r.1.Success? <==> offer < |c.offers| && c.offers[offer].promoter == promoter
                                  && c.offers[offer].status == Sent)
            && (!r.1.Success? ==> r.0 == w)
            && (r.1.Success? ==>
                  r.0 == w.(campaign := c.(offers := c.offers[offer := c.offers[offer].(status := Declined)])))
    ensures var (c, w') := (w.campaign, ExpireOffers(w, now));
            && w' == w.(campaign := c.(offers := w'.campaign.offers)) && |w'.campaign.offers| == |c.offers|
            && forall i :: 0 <= i < |c.offers| ==>
                 w'.campaign.offers[i] == if c.offers[i].status == Sent && c.offers[i].expiresAt < now
                                          then c.offers[i].(status := Expired) else c.offers[i]
  {
  }

  // ---- Proof ----

  /** The post meant: the one named, or the earliest that waits for a proof. */
  predicate Meant(posts: seq<DeliverySlot>, named: Option<nat>, p: nat)
  {
    match named
    case Some(q) => p == q
    case None => p < |posts| && WaitsForProof(posts[p]) && forall i :: 0 <= i < p ==> !WaitsForProof(posts[i])
  }

  predicate WaitsForProof(post: DeliverySlot) { post.status == Pending || post.status == Rejected }

  /** From c to c' post p of assignment i has a new status and the assignment's status follows. */
  predicate Moves(c: Campaign, c': Campaign, i: nat, p: nat, status: PostStatus)
  {
    && i < |c.assignments| && p < |c.assignments[i].posts| && i < |c'.assignments|
    && c'.assignments[i].posts == c.assignments[i].posts[p := c.assignments[i].posts[p].(status := status)]
    && c' == c.(submissions := c'.submissions,
                assignments := c.assignments[i := c.assignments[i].(posts := c'.assignments[i].posts,
                                                                   status := RollupOf(c'.assignments[i].posts))])
  }

  /**
   * A proof is taken exactly from the promoter of an assignment not CANCELLED, for a post that waits for one; the post
   * goes to review with a submission to be judged.
   */
  lemma SubmittingInFull(w: World, assignment: nat, promoter: nat, named: Option<nat>)
    ensures var (c, r) := (w.campaign, Submit(w, assignment, promoter, named));
            && (r.1.Success?
                <==> assignment < |c.assignments| && c.assignments[assignment].promoter == promoter
                     && c.assignments[assignment].status != Cancelled
                     && exists p: nat :: Meant(c.assignments[assignment].posts, named, p)
                                         && p < |c.assignments[assignment].posts|
                                         && WaitsForProof(c.assignments[assignment].posts[p]))
            && (!r.1.Success? ==> r.0 == w)
            && (r.1.Success? ==>
                  r.0.books == w.books && forall p: nat :: Meant(c.assignments[assignment].posts, named, p) ==>
                    && Moves(c, r.0.campaign, assignment, p, Submitted)
                    && r.0.campaign.submissions == c.submissions + [Submission(assignment, p, Undecided, 0)])
  {
    var c := w.campaign;
    if assignment < |c.assignments| {
      var posts := c.assignments[assignment].posts;
      var p := Given(named, FirstOutstanding(posts));
      assert p == GetOr(named, FirstOutstanding(posts));
      forall q: nat | Meant(posts, named, q) ensures p == q {
        if named == None {
          assert Outstanding(posts[q].status);
        }
      }
      assert p < |posts| && WaitsForProof(posts[p]) ==> Meant(posts, named, p);
    }
  }

  /** A proof is turned down exactly while it is to be judged; its post waits for another. */
  lemma RejectingInFull(w: World, s: nat)
    ensures var (c, r) := (w.campaign, RejectSubmission(w, s));
            && (r.1.Success? <==> GoodSubmission(c, s) && c.submissions[s].verdict == Undecided)
            && (!r.1.Success? ==> r.0 == w)
            && (r.1.Success? ==>
                  && r.0.books == w.books
                  && Moves(c, r.0.campaign, c.submissions[s].assignment, c.submissions[s].post, Rejected)
                  && r.0.campaign.submissions == c.submissions[s := c.submissions[s].(verdict := Failed)])
  {
  }
}
