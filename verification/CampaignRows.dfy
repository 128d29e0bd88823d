/**
 * What every handler keeps about a campaign's rows: slots against assignments, offers against assignments, stored
 * status against posts.
 */
module CampaignRows {
  import opened Common
  import opened Ledger
  import opened Delivery
  import opened Campaigns
  import Schedule
  import Pricing
  import Quotes

  predicate OnAir(c: Campaign) { c.status.Live? || c.status.Fulfilled? }

  function FilledOne(s: Slot): int { if s.status.Filled? then 1 else 0 }

  function HoldingOne(a: Assignment): int { if a.slot.Some? then 1 else 0 }

  predicate SlotsOk(c: Campaign)
  {
    forall k :: 0 <= k < |c.slots| ==>
      c.slots[k].unitPrice == UnitOf(c) && (c.slots[k].status.Open? || c.slots[k].status.Filled?)
        && 1 <= c.slots[k].posts
  }

  predicate PostsOk(posts: seq<DeliverySlot>, unit: nat)
  {
    posts != [] && forall j :: 0 <= j < |posts| ==> posts[j].index == j + 1 && posts[j].gross == unit
  }

  /** A slot-holding assignment fills its slot, and its stored status is the roll-up of its posts, never CANCELLED. */
  predicate AssignmentOk(c: Campaign, a: Assignment)
  {
    && a.offer < |c.offers| && c.offers[a.offer].status.Accepted? && c.offers[a.offer].promoter == a.promoter
    && PostsOk(a.posts, UnitOf(c))
    && (a.slot.Some? ==> a.slot.value < |c.slots| && c.slots[a.slot.value].status.Filled?
                         && a.status == RollupOf(a.posts) && !a.status.Cancelled?)
  }

  /** No slot and no offer is used twice. */
  predicate Distinct(c: Campaign)
  {
    && (forall i, j :: 0 <= i < j < |c.assignments| ==> c.assignments[i].offer != c.assignments[j].offer)
    && (forall i, j :: 0 <= i < j < |c.assignments| && c.assignments[i].slot.Some? ==>
       c.assignments[i].slot != c.assignments[j].slot)
    && (forall i, j :: 0 <= i < j < |c.offers| ==> c.offers[i].promoter != c.offers[j].promoter)
  }

  predicate Held(c: Campaign, k: nat)
  {
    exists i :: 0 <= i < |c.assignments| && c.assignments[i].slot == Some(k)
  }

  predicate FilledAreHeld(c: Campaign)
  {
    forall k :: 0 <= k < |c.slots| && c.slots[k].status.Filled? ==> Held(c, k)
  }

  predicate CountersOk(c: Campaign)
  {
    && c.slotsFilled == Sum(FilledOne, c.slots) == Sum(HoldingOne, c.assignments)
    && (!c.status.Draft? ==> c.slotsTotal == |c.slots|)
  }

  /** Before a campaign is live nobody works on it and every priced slot is open. */
  predicate Quiet(c: Campaign)
  {
    && c.offers == [] && c.assignments == [] && c.submissions == [] && c.noShows == []
    && forall k :: 0 <= k < |c.slots| ==> c.slots[k].status.Open? && (!c.status.Draft? ==> c.slots[k].posts == c.posts)
  }

  predicate OffersOk(c: Campaign)
  {
    forall i :: 0 <= i < |c.offers| ==> c.offers[i].gross == UnitOf(c)
  }

  predicate TablesOk(c: Campaign)
  {
    && !c.status.ConfirmingPayment? && !c.status.Paused? && !c.status.Ended? && !c.status.Settled?
    && 1 <= c.posts
    && (!OnAir(c) ==> Quiet(c))
    && SlotsOk(c) && OffersOk(c)
    && (forall i :: 0 <= i < |c.assignments| ==> AssignmentOk(c, c.assignments[i]))
    && Distinct(c) && FilledAreHeld(c) && CountersOk(c)
  }

  predicate SubmissionOk(c: Campaign, s: Submission)
  {
    && s.assignment < |c.assignments| && s.post < |c.assignments[s.assignment].posts|
    && (s.verdict.Undecided? ==> c.assignments[s.assignment].posts[s.post].status.Submitted?)
  }

  /** A submission still to be judged is the only one for its post, and that post is in review. */
  predicate SubmissionsOk(c: Campaign)
  {
    && (forall s :: 0 <= s < |c.submissions| ==> SubmissionOk(c, c.submissions[s]))
    && (forall s, t ::
       0 <= s < t < |c.submissions| && c.submissions[s].verdict.Undecided? && c.submissions[t].verdict.Undecided? ==>
          c.submissions[s].assignment != c.submissions[t].assignment || c.submissions[s].post != c.submissions[t].post)
  }

  predicate RowsOk(c: Campaign) { TablesOk(c) && SubmissionsOk(c) }

  // ---- Small facts ----

  lemma RollupNotCancelled(posts: seq<DeliverySlot>, p: nat)
    requires p < |posts| && !posts[p].status.Missed?
    ensures !RollupOf(posts).Cancelled?
  {
    RollupReadsBack(Views(posts));
    assert Views(posts)[p].status == posts[p].status;
  }

  lemma SetPostKeeps(c: Campaign, a: nat, p: nat, status: PostStatus, subs: seq<Submission>)
    requires TablesOk(c) && a < |c.assignments| && p < |c.assignments[a].posts| && !status.Missed?
    ensures TablesOk(SetPost(c, a, p, status).(submissions := subs))
  {
    var c' := SetPost(c, a, p, status).(submissions := subs);
    assert AssignmentOk(c, c.assignments[a]);
    RollupNotCancelled(c'.assignments[a].posts, p);
    SumUpdate(HoldingOne, c.assignments, a, c'.assignments[a]);
    forall i | 0 <= i < |c'.assignments| ensures AssignmentOk(c', c'.assignments[i]) {
      assert AssignmentOk(c, c.assignments[i]);
    }
    HeldStays(c, c');
  }

  lemma HeldStays(c: Campaign, c': Campaign)
    requires FilledAreHeld(c) && c'.slots == c.slots && |c'.assignments| == |c.assignments|
    requires forall i :: 0 <= i < |c.assignments| ==> c'.assignments[i].slot == c.assignments[i].slot
    ensures FilledAreHeld(c')
  {
    forall k | 0 <= k < |c'.slots| && c'.slots[k].status.Filled? ensures Held(c', k) {
      assert Held(c, k);
      var i :| 0 <= i < |c.assignments| && c.assignments[i].slot == Some(k);
      assert c'.assignments[i].slot == Some(k);
    }
  }

  lemma FreshSlotsCountNothing(n: nat, unit: nat, posts: nat)
    ensures Sum(FilledOne, FreshSlots(n, unit, posts)) == 0
  {
    SumConstant(FilledOne, FreshSlots(n, unit, posts), 0);
  }

  // ---- Handlers before the campaign is live ----

  /** Changing only the header of a campaign. */
  lemma HeaderKeepsRows(c: Campaign, c': Campaign)
    requires RowsOk(c)
    requires c'.slots == c.slots && c'.offers == c.offers && c'.assignments == c.assignments
             && c'.submissions == c.submissions
    requires c'.noShows == c.noShows && c'.slotsFilled == c.slotsFilled && 1 <= c'.posts
    requires !c'.status.ConfirmingPayment? && !c'.status.Paused? && !c'.status.Ended? && !c'.status.Settled?
    requires !OnAir(c') ==> Quiet(c')
    requires !c'.status.Draft? ==> c'.slotsTotal == |c'.slots|
    ensures RowsOk(c')
  {
    HeldStays(c, c');
    assert forall i :: 0 <= i < |c.assignments| ==> AssignmentOk(c, c.assignments[i]) ==>
           AssignmentOk(c', c.assignments[i]);
    assert forall s :: 0 <= s < |c.submissions| ==> SubmissionOk(c, c.submissions[s]) ==>
           SubmissionOk(c', c.submissions[s]);
  }

  lemma UpdateKeepsRows(w: World, e: Edits)
    requires RowsOk(w.campaign)
    ensures RowsOk(Update(w, e).0.campaign)
  {
    var c' := Update(w, e).0.campaign;
    if Update(w, e).1.Success? {
      assert w.campaign.status.Quoted? && NoEdits(e) ==> c' == w.campaign;
      HeaderKeepsRows(w.campaign, c');
    }
  }

  lemma TargetingKeepsRows(w: World)
    requires RowsOk(w.campaign)
    ensures RowsOk(SetTargeting(w).0.campaign)
  {
    if SetTargeting(w).1.Success? {
      HeaderKeepsRows(w.campaign, SetTargeting(w).0.campaign);
    }
  }

  lemma QuoteKeepsRows(w: World, exactPrice: Option<int>, terms: Quotes.Terms)
    requires RowsOk(w.campaign)
    ensures RowsOk(TakeQuote(w, exactPrice, terms).0.campaign)
  {
    var c := w.campaign;
    var q := Quotes.QuoteFor(c.posts, Max(0, c.slotsTotal), exactPrice, terms);
    if Editable(c) && q.Ok? {
      FreshSlotsCountNothing(q.value.slots, q.value.unit, c.posts);
    }
  }

  lemma FundEscrowKeepsRows(w: World, price: nat, key: Key)
    requires RowsOk(w.campaign) && Fundable(w.campaign)
    ensures RowsOk(FundEscrow(w, price, key).0.campaign)
  {
    var c' := FundEscrow(w, price, key).0.campaign;
    if c' != w.campaign {
      HeaderKeepsRows(w.campaign, c');
    }
  }

  lemma ChargeUnfolds(w: World, reference: string, charge: Charge)
    ensures var c := w.campaign;
            Step(w, DoCharge(reference, charge))
            == if c.price.Some? && Fundable(c) && !Has(w.books.log, PaystackKey(reference))
                  && charge.succeeded && charge.inNaira && charge.amount == c.price.value
               then FundEscrow(w, c.price.value, PaystackKey(reference)).0 else w
  {
  }

  lemma TransferUnfolds(w: World, amount: int, key: Key)
    ensures var c := w.campaign;
            Step(w, DoFund(amount, key))
            == if c.price.Some? && Fundable(c) && !Has(w.books.log, key) && key.ClientKey? && amount == c.price.value
               then FundEscrow(w, c.price.value, key).0 else w
  {
  }

  lemma FundingKeepsRows(w: World, action: Action)
    requires RowsOk(w.campaign) && IsFunding(action)
    ensures RowsOk(Step(w, action).campaign)
  {
    match action {
      case DoFund(amount, key) => TransferUnfolds(w, amount, key);
      case DoCharge(reference, charge) => ChargeUnfolds(w, reference, charge);
    }
    if Fundable(w.campaign) && w.campaign.price.Some? {
      FundEscrowKeepsRows(w, w.campaign.price.value,
                          if action.DoFund? then action.key else PaystackKey(action.reference));
    }
  }

  lemma ReviewChangesStatus(w: World, action: Action)
    requires IsReview(action)
    ensures var c, c' := w.campaign, Step(w, action).campaign;
            c' == c.(status := c'.status) && (c' == c || c.status.UnderReview? || c.status.ChangesNeeded?)
            && (c' == c || c'.status.ChangesNeeded? || c'.status.CalledOff? || c'.status.UnderReview?
               || (c'.status.Live? && action.DoApproveCampaign?))
            && (OnAir(c) ==> Step(w, action) == w)
  {
  }

  lemma ReviewKeepsRows(w: World, action: Action)
    requires RowsOk(w.campaign) && IsReview(action)
    ensures RowsOk(Step(w, action).campaign)
  {
    ReviewChangesStatus(w, action);
    if Step(w, action).campaign != w.campaign {
      HeaderKeepsRows(w.campaign, Step(w, action).campaign);
    }
  }

  // ---- Offers ----

  lemma {:induction false} OfferEachKeepsRows(c: Campaign, promoters: seq<nat>, terms: OfferTerms)
    requires RowsOk(c) && OnAir(c)
    ensures RowsOk(OfferEach(c, promoters, terms).0)
    decreases |promoters|
  {
    if promoters != [] && promoters[0] in terms.qualified {
      if AlreadyOffered(c, promoters[0]) {
        OfferEachKeepsRows(c, promoters[1..], terms);
      } else {
        var c' := c.(offers := c.offers + [NewOffer(c, promoters[0], terms)]);
        forall i, j | 0 <= i < j < |c'.offers| ensures c'.offers[i].promoter != c'.offers[j].promoter {
          assert c'.offers[i] == c.offers[i];
        }
        HeldStays(c, c');
        assert forall i :: 0 <= i < |c.assignments| ==> AssignmentOk(c, c.assignments[i]) ==>
               AssignmentOk(c', c.assignments[i]);
        OfferEachKeepsRows(c', promoters[1..], terms);
      }
    }
  }

  lemma OfferStatusKeepsRows(c: Campaign, offers: seq<Offer>)
    requires RowsOk(c) && |offers| == |c.offers|
    requires forall i :: 0 <= i < |offers| ==> offers[i] == c.offers[i].(status := offers[i].status)
    requires forall i :: 0 <= i < |offers| && c.offers[i].status.Accepted? ==> offers[i].status.Accepted?
    ensures RowsOk(c.(offers := offers))
  {
    var c' := c.(offers := offers);
    forall i | 0 <= i < |c.assignments| ensures AssignmentOk(c', c.assignments[i]) {
      assert AssignmentOk(c, c.assignments[i]);
    }
    HeldStays(c, c');
    assert !OnAir(c) ==> offers == [];
  }

  lemma AcceptKeepsCounters(c: Campaign, k: nat, offer: nat, a: Assignment, c': Campaign)
    requires TablesOk(c) && k < |c.slots| && c.slots[k].status.Open? && a.slot == Some(k)
    requires c'.slots == c.slots[k := c.slots[k].(status := Filled)] && c'.assignments == c.assignments + [a]
    requires c'.slotsFilled == c.slotsFilled + 1 && c'.slotsTotal == c.slotsTotal && c'.status == c.status
    ensures CountersOk(c') && FilledAreHeld(c')
  {
    SumUpdate(FilledOne, c.slots, k, c'.slots[k]);
    SumSnoc(HoldingOne, c.assignments, a);
    forall j | 0 <= j < |c'.slots| && c'.slots[j].status.Filled? ensures Held(c', j) {
      if j == k {
        assert c'.assignments[|c.assignments|].slot == Some(k);
      } else {
        assert Held(c, j);
        var i :| 0 <= i < |c.assignments| && c.assignments[i].slot == Some(j);
        assert c'.assignments[i].slot == Some(j);
      }
    }
  }

  lemma AcceptKeepsTables(c: Campaign, k: nat, offer: nat, a: Assignment, c': Campaign)
    requires TablesOk(c) && OnAir(c) && k < |c.slots| && c.slots[k].status.Open? && a.slot == Some(k)
    requires offer < |c.offers| && c.offers[offer].status.Sent? && a.offer == offer
             && a.promoter == c.offers[offer].promoter
    requires PostsOk(a.posts, UnitOf(c)) && a.status == RollupOf(a.posts) && !a.status.Cancelled?
    requires c' == c.(slots := c.slots[k := c.slots[k].(status := Filled)], assignments := c.assignments + [a],
                      offers := c.offers[offer := c.offers[offer].(status := Accepted)],
                      slotsFilled := c.slotsFilled + 1)
    ensures TablesOk(c')
  {
    AcceptKeepsCounters(c, k, offer, a, c');
    assert UnitOf(c') == UnitOf(c);
    forall i | 0 <= i < |c.assignments|
      ensures AssignmentOk(c', c.assignments[i]) && c.assignments[i].offer != offer && c.assignments[i].slot != Some(k)
    {
      assert AssignmentOk(c, c.assignments[i]);
    }
    assert AssignmentOk(c', a);
    OneMoreIsDistinct(c, offer, k, a, c');
  }

  lemma OneMoreIsDistinct(c: Campaign, offer: nat, k: nat, a: Assignment, c': Campaign)
    requires Distinct(c) && offer < |c.offers| && a.offer == offer && a.slot == Some(k)
             && c'.assignments == c.assignments + [a]
    requires c'.offers == c.offers[offer := c.offers[offer].(status := Accepted)]
    requires forall i :: 0 <= i < |c.assignments| ==>
             c.assignments[i].offer != offer && c.assignments[i].slot != Some(k)
    ensures Distinct(c')
  {
  }

  lemma AcceptKeepsRows(w: World, offer: nat, promoter: nat, clock: Clock)
    requires RowsOk(w.campaign)
    ensures RowsOk(Accept(w, offer, promoter, clock).0.campaign)
  {
    var c := w.campaign;
    var (w', reply) := Accept(w, offer, promoter, clock);
    if reply.Success? {
      var c', k := w'.campaign, FirstOpen(c.slots);
      var a := c'.assignments[|c.assignments|];
      NewPostsOk(c, c.offers[offer], c.slots[k].posts, clock);
      AcceptKeepsTables(c, k, offer, a, c');
      forall s | 0 <= s < |c'.submissions| ensures SubmissionOk(c', c'.submissions[s]) {
        assert SubmissionOk(c, c.submissions[s]);
      }
    }
  }

  lemma NewPostsOk(c: Campaign, o: Offer, posts: nat, clock: Clock)
    requires 1 <= posts
    ensures var ps := NewPosts(c, o, posts, clock);
            |ps| == posts && PostsOk(ps, o.gross) && RollupOf(ps) == InProgress
            && forall j :: 0 <= j < posts ==> ps[j].status.Pending?
  {
    Schedule.ScheduleLength(c.startsAt, c.endsAt, posts, clock.bufferHours, clock.window, clock.now);
    var ps := NewPosts(c, o, posts, clock);
    RollupReadsBack(Views(ps));
    assert Outstanding(Views(ps)[0].status);
  }

  // ---- Proof ----

  lemma SubmitKeepsRows(w: World, assignment: nat, promoter: nat, named: Option<nat>)
    requires RowsOk(w.campaign)
    ensures RowsOk(Submit(w, assignment, promoter, named).0.campaign)
  {
    var c := w.campaign;
    var (w', reply) := Submit(w, assignment, promoter, named);
    if reply.Success? {
      var c' := w'.campaign;
      var p := GetOr(named, FirstOutstanding(c.assignments[assignment].posts));
      SetPostKeeps(c, assignment, p, Submitted, c'.submissions);
      forall s | 0 <= s < |c.submissions|
        ensures SubmissionOk(c', c'.submissions[s])
        ensures c.submissions[s].verdict.Undecided? ==>
                c.submissions[s].assignment != assignment || c.submissions[s].post != p
      {
        assert SubmissionOk(c, c.submissions[s]);
      }
    }
  }

  /** Judging a submission moves its post out of review and leaves every other one where it was. */
  lemma JudgeKeepsRows(c: Campaign, s: nat, status: PostStatus, verdict: Verdict, verified: nat)
    requires RowsOk(c) && s < |c.submissions| && c.submissions[s].verdict.Undecided? && !status.Missed?
             && !verdict.Undecided?
    ensures GoodSubmission(c, s)
    ensures RowsOk(SetPost(c, c.submissions[s].assignment, c.submissions[s].post, status)
                   .(submissions := c.submissions[s := c.submissions[s].(verdict := verdict, verified := verified)]))
  {
    assert SubmissionOk(c, c.submissions[s]);
    var a, p := c.submissions[s].assignment, c.submissions[s].post;
    var subs := c.submissions[s := c.submissions[s].(verdict := verdict, verified := verified)];
    SetPostKeeps(c, a, p, status, subs);
    var c' := SetPost(c, a, p, status).(submissions := subs);
    forall t | 0 <= t < |subs| ensures SubmissionOk(c', subs[t]) {
      assert SubmissionOk(c, c.submissions[t]);
    }
  }

  lemma RejectKeepsRows(w: World, s: nat)
    requires RowsOk(w.campaign)
    ensures RowsOk(RejectSubmission(w, s).0.campaign)
  {
    var c := w.campaign;
    if GoodSubmission(c, s) && c.submissions[s].verdict.Undecided? {
      JudgeKeepsRows(c, s, Rejected, Failed, c.submissions[s].verified);
    }
  }

  lemma ReopenKeepsRows(c: Campaign, n: nat)
    requires RowsOk(c) && OnAir(c) && 0 < n
    ensures RowsOk(c.(slots := c.slots + FreshSlots(n, UnitOf(c), c.posts), slotsTotal := c.slotsTotal + n))
  {
    var c' := c.(slots := c.slots + FreshSlots(n, UnitOf(c), c.posts), slotsTotal := c.slotsTotal + n);
    MoreSlotsKeepCounters(c, n, c');
    assert UnitOf(c') == UnitOf(c);
    forall i | 0 <= i < |c.assignments| ensures AssignmentOk(c', c.assignments[i]) {
      assert AssignmentOk(c, c.assignments[i]);
    }
    forall s | 0 <= s < |c.submissions| ensures SubmissionOk(c', c.submissions[s]) {
      assert SubmissionOk(c, c.submissions[s]);
    }
  }

  lemma MoreSlotsKeepCounters(c: Campaign, n: nat, c': Campaign)
    requires CountersOk(c) && FilledAreHeld(c) && !c.status.Draft?
    requires c' == c.(slots := c.slots + FreshSlots(n, UnitOf(c), c.posts), slotsTotal := c.slotsTotal + n)
    ensures CountersOk(c') && FilledAreHeld(c')
  {
    SumConcat(FilledOne, c.slots, FreshSlots(n, UnitOf(c), c.posts));
    FreshSlotsCountNothing(n, UnitOf(c), c.posts);
    forall k | 0 <= k < |c'.slots| && c'.slots[k].status.Filled? ensures Held(c', k) {
      assert Held(c, k);
    }
  }

  /** A payment touches the rows only to mark a post whose proof was still to be judged. */
  lemma PayShape(w: World, s: nat, verified: int, key: Key, settlement: Pricing.SettlementConfig)
    ensures var paid := PayForPost(w, s, verified, key, settlement);
            if paid.paidNow then
              0 <= verified && GoodSubmission(w.campaign, s) && w.campaign.submissions[s].verdict.Undecided?
              && paid.world.campaign == MarkApproved(w.campaign, s, verified)
            else paid.world.campaign == w.campaign
  {
  }

  lemma MarkKeepsRows(c: Campaign, s: nat, verified: nat)
    requires RowsOk(c) && GoodSubmission(c, s) && c.submissions[s].verdict.Undecided?
    ensures RowsOk(MarkApproved(c, s, verified)) && MarkApproved(c, s, verified).status == c.status
  {
    JudgeKeepsRows(c, s, Approved, Passed, verified);
  }

  lemma PayKeepsRows(w: World, s: nat, verified: int, key: Key, settlement: Pricing.SettlementConfig)
    requires RowsOk(w.campaign)
    ensures RowsOk(PayForPost(w, s, verified, key, settlement).world.campaign)
    ensures PayForPost(w, s, verified, key, settlement).world.campaign.status == w.campaign.status
  {
    PayShape(w, s, verified, key, settlement);
    if PayForPost(w, s, verified, key, settlement).paidNow {
      MarkKeepsRows(w.campaign, s, verified);
    }
  }

  lemma RetainLeavesRows(w: World, escrow: nat)
    requires escrow < |w.books.accounts|
    ensures RetainRemainder(w, escrow).0.campaign == w.campaign
  {
  }

  lemma DecideKeepsRows(w: World, escrow: nat, reachPerPost: nat)
    requires RowsOk(w.campaign) && OnAir(w.campaign) && escrow < |w.books.accounts|
    ensures RowsOk(Decide(w, escrow, reachPerPost).0.campaign)
  {
    var c := w.campaign;
    var reopen := ReopenCount(c, Balance(w.books, escrow), reachPerPost);
    if 0 < reopen {
      ReopenKeepsRows(c, reopen);
    } else if ReachMet(c) || !WorkInFlight(c) {
      HeaderKeepsRows(c, c.(status := Fulfilled));
      RetainLeavesRows(w.(campaign := c.(status := Fulfilled)), escrow);
    }
  }

  lemma ApproveKeepsRows(w: World, s: nat, verified: int, key: Key, terms: ApprovalTerms)
    requires RowsOk(w.campaign)
    ensures RowsOk(ApproveSubmission(w, s, verified, key, terms).0.campaign)
  {
    var paid := PayForPost(w, s, verified, key, terms.settlement);
    PayKeepsRows(w, s, verified, key, terms.settlement);
    if paid.paidNow && w.campaign.status.Live? && w.campaign.escrow.Some?
      && w.campaign.escrow.value < |paid.world.books.accounts| {
      DecideKeepsRows(paid.world, w.campaign.escrow.value, terms.reachPerPost);
    }
  }

  // ---- The sweep ----

  lemma FlippedPosts(posts: seq<DeliverySlot>, unit: nat, now: int)
    requires PostsOk(posts, unit)
    ensures PostsOk(FlipPosts(posts, now), unit) && PostsOk(ForfeitPosts(posts), unit)
  {
  }

  /** Sweeping one assignment touches that assignment, its slot and the counter. */
  lemma SweepOneKeepsTables(c: Campaign, i: nat, now: int)
    requires TablesOk(c) && i < |c.assignments|
    ensures TablesOk(SweepOne(c, i, now))
  {
    var a := c.assignments[i];
    if NewlyMissed(a, now) != 0 {
      assert AssignmentOk(c, a);
      FlippedPosts(a.posts, UnitOf(c), now);
      var posts := FlipPosts(a.posts, now);
      FlippedPosts(posts, UnitOf(c), now);
      if ShouldPull(Views(posts)) {
        PullKeepsTables(c, i, posts, SweepOne(c, i, now));
      } else {
        KeepKeepsTables(c, i, posts, SweepOne(c, i, now));
      }
    }
  }

  lemma KeepKeepsTables(c: Campaign, i: nat, posts: seq<DeliverySlot>, c': Campaign)
    requires TablesOk(c) && i < |c.assignments| && PostsOk(posts, UnitOf(c)) && !ShouldPull(Views(posts))
    requires c' == c.(assignments := c.assignments[i := c.assignments[i].(posts := posts, status := RollupOf(posts))],
             noShows := c'.noShows)
    ensures TablesOk(c')
  {
    KeptIsNeverCancelled(Views(posts));
    SumUpdate(HoldingOne, c.assignments, i, c'.assignments[i]);
    forall j | 0 <= j < |c'.assignments| ensures AssignmentOk(c', c'.assignments[j]) {
      assert AssignmentOk(c, c.assignments[j]);
    }
    HeldStays(c, c');
  }

  lemma DeficitIsPositive(posts: seq<DeliverySlot>)
    requires ShouldPull(Views(posts))
    ensures 1 <= Deficit(posts) <= |posts|
  {
  }

  lemma PullKeepsTables(c: Campaign, i: nat, posts: seq<DeliverySlot>, c': Campaign)
    requires TablesOk(c) && i < |c.assignments| && PostsOk(posts, UnitOf(c)) && ShouldPull(Views(posts))
    requires c' == Pull(c.(assignments := c.assignments[i := c.assignments[i].(posts := posts)]), i)
                   .(noShows := c'.noShows)
    ensures TablesOk(c')
  {
    var a := c.assignments[i];
    assert AssignmentOk(c, a);
    FlippedPosts(posts, UnitOf(c), 0);
    DeficitIsPositive(posts);
    ReleaseKeepsTables(c, i, c'.assignments[i], Deficit(posts), c');
  }

  /** Assignment i lets go of its slot, which opens again for some number of posts. */
  lemma ReleaseKeepsTables(c: Campaign, i: nat, released: Assignment, posts: nat, c': Campaign)
    requires TablesOk(c) && i < |c.assignments| && 1 <= posts && PostsOk(released.posts, UnitOf(c))
             && released.slot.None?
    requires released.offer == c.assignments[i].offer && released.promoter == c.assignments[i].promoter
    requires c' == c.(assignments := c.assignments[i := released], slots := c'.slots, slotsFilled := c'.slotsFilled,
             noShows := c'.noShows)
    requires match c.assignments[i].slot
             case None => c'.slots == c.slots && c'.slotsFilled == c.slotsFilled
             case Some(k) => k < |c.slots| && c'.slots == c.slots[k := c.slots[k].(status := Open, posts := posts)]
                             && c'.slotsFilled == c.slotsFilled - 1
    ensures TablesOk(c')
  {
    var a := c.assignments[i];
    assert AssignmentOk(c, a);
    assert UnitOf(c') == UnitOf(c);
    ReleaseKeepsCounters(c, i, released, posts, c');
    forall j | 0 <= j < |c'.assignments| ensures AssignmentOk(c', c'.assignments[j]) {
      assert AssignmentOk(c, c.assignments[j]);
      if j != i && a.slot.Some? {
        assert c.assignments[j].slot != a.slot;
      }
    }
    assert Distinct(c');
  }

  lemma ReleaseKeepsCounters(c: Campaign, i: nat, released: Assignment, posts: nat, c': Campaign)
    requires CountersOk(c) && FilledAreHeld(c) && i < |c.assignments| && released.slot.None? && c'.status == c.status
    requires c.assignments[i].slot.Some? ==>
             c.assignments[i].slot.value < |c.slots| && c.slots[c.assignments[i].slot.value].status.Filled?
    requires c'.assignments == c.assignments[i := released] && c'.slotsTotal == c.slotsTotal
    requires match c.assignments[i].slot
             case None => c'.slots == c.slots && c'.slotsFilled == c.slotsFilled
             case Some(k) =>
               && c'.slots == c.slots[k := c.slots[k].(status := Open, posts := posts)]
               && c'.slotsFilled == c.slotsFilled - 1
    ensures CountersOk(c') && FilledAreHeld(c')
  {
    var a := c.assignments[i];
    SumUpdate(HoldingOne, c.assignments, i, released);
    if a.slot.Some? {
      SumUpdate(FilledOne, c.slots, a.slot.value, c'.slots[a.slot.value]);
    }
    forall k | 0 <= k < |c'.slots| && c'.slots[k].status.Filled? ensures Held(c', k) {
      assert Held(c, k);
      var j :| 0 <= j < |c.assignments| && c.assignments[j].slot == Some(k);
      assert c'.assignments[j].slot == Some(k);
    }
  }

  /** A post in review stays in review through a sweep. */
  lemma SweepOneSparesSubmitted(c: Campaign, i: nat, now: int)
    requires i < |c.assignments|
    ensures var c' := SweepOne(c, i, now);
            c'.submissions == c.submissions && |c'.assignments| == |c.assignments|
            && forall j :: 0 <= j < |c.assignments| ==>
                 |c'.assignments[j].posts| == |c.assignments[j].posts|
                 && forall p :: 0 <= p < |c.assignments[j].posts| && c.assignments[j].posts[p].status.Submitted? ==>
                      c'.assignments[j].posts[p].status.Submitted?
  {
  }

  lemma SweepOneKeepsRows(c: Campaign, i: nat, now: int)
    requires RowsOk(c) && i < |c.assignments|
    ensures RowsOk(SweepOne(c, i, now))
  {
    SweepOneKeepsTables(c, i, now);
    SweepOneSparesSubmitted(c, i, now);
    var c' := SweepOne(c, i, now);
    forall s | 0 <= s < |c'.submissions| ensures SubmissionOk(c', c'.submissions[s]) {
      assert SubmissionOk(c, c.submissions[s]);
    }
  }

  /** Induction over a sweep: what every step keeps holds at the end. */
  lemma {:induction false} SweepInduction(c: Campaign, n: nat, now: int, P: (Campaign, nat) -> bool)
    requires n <= |c.assignments| && P(c, 0)
    requires forall x: Campaign, i: nat :: i < n && |x.assignments| == |c.assignments| && P(x, i) ==>
             P(SweepOne(x, i, now), i + 1)
    ensures P(SweepUpTo(c, n, now), n)
  {
    if n > 0 {
      SweepInduction(c, n - 1, now, P);
      var mid := SweepUpTo(c, n - 1, now);
      assert P(SweepOne(mid, n - 1, now), n);
    }
  }

  lemma SweepKeepsRows(c: Campaign, n: nat, now: int)
    requires RowsOk(c) && n <= |c.assignments|
    ensures RowsOk(SweepUpTo(c, n, now))
  {
    forall x: Campaign, i: nat | i < n && |x.assignments| == |c.assignments| && RowsOk(x)
      ensures RowsOk(SweepOne(x, i, now))
    {
      SweepOneKeepsRows(x, i, now);
    }
    SweepInduction(c, n, now, (x: Campaign, i: nat) => RowsOk(x));
  }

  // ---- Every run ----

  lemma BriefStepRows(w: World, action: Action)
    requires RowsOk(w.campaign) && IsBriefWork(action)
    ensures RowsOk(Step(w, action).campaign)
  {
    match action
    case DoUpdate(e) => UpdateKeepsRows(w, e);
    case DoSetTargeting => TargetingKeepsRows(w);
    case DoQuote(price, terms) => QuoteKeepsRows(w, price, terms);
  }

  lemma SendStepRows(w: World, action: Action)
    requires RowsOk(w.campaign) && action.DoSendOffers?
    ensures RowsOk(Step(w, action).campaign)
  {
    StepIsHandler(w, action);
    if w.campaign.status.Live? {
      OfferEachKeepsRows(w.campaign, action.promoters, action.offerTerms);
    }
  }

  lemma OfferStatusStepRows(w: World, action: Action)
    requires RowsOk(w.campaign) && (action.DoDecline? || action.DoExpire?)
    ensures RowsOk(Step(w, action).campaign)
  {
    StepIsHandler(w, action);
    var offers := Step(w, action).campaign.offers;
    OfferStatusKeepsRows(w.campaign, offers);
  }

  lemma StepIsHandler(w: World, action: Action)
    ensures match action
            case DoAccept(offer, promoter, clock) => Step(w, action) == Accept(w, offer, promoter, clock).0
            case DoSubmit(assignment, promoter, named) => Step(w, action) == Submit(w, assignment, promoter, named).0
            case DoApprove(s, verified, key, terms) =>
              Step(w, action) == if key.ClientKey? then ApproveSubmission(w, s, verified, key, terms).0 else w
            case DoReject(s) => Step(w, action) == RejectSubmission(w, s).0
            case DoSweep(now) => Step(w, action) == Sweep(w, now)
            case DoSendOffers(promoters, terms) =>
              Step(w, action).campaign == if promoters == [] || !w.campaign.status.Live? || w.campaign.slots == [] then
                                            w.campaign
                                          else OfferEach(w.campaign, promoters, terms).0
            case DoDecline(_, _) => Step(w, action).campaign == w.campaign.(offers := Step(w, action).campaign.offers)
            case DoExpire(_) => Step(w, action).campaign == w.campaign.(offers := Step(w, action).campaign.offers)
            case _ => true
  {
  }

  lemma ProofStepRows(w: World, action: Action)
    requires RowsOk(w.campaign) && (action.DoSubmit? || action.DoReject?)
    ensures RowsOk(Step(w, action).campaign)
  {
    StepIsHandler(w, action);
    if action.DoSubmit? {
      SubmitKeepsRows(w, action.assignment, action.promoter, action.named);
    } else {
      RejectKeepsRows(w, action.submission);
    }
  }

  lemma AcceptStepRows(w: World, action: Action)
    requires RowsOk(w.campaign) && action.DoAccept?
    ensures RowsOk(Step(w, action).campaign)
  {
    StepIsHandler(w, action);
    AcceptKeepsRows(w, action.offer, action.promoter, action.clock);
  }

  lemma ApproveStepRows(w: World, action: Action)
    requires RowsOk(w.campaign) && action.DoApprove?
    ensures RowsOk(Step(w, action).campaign)
  {
    StepIsHandler(w, action);
    ApproveKeepsRows(w, action.submission, action.verified, action.key, action.terms);
  }

  lemma SweepStepRows(w: World, action: Action)
    requires RowsOk(w.campaign) && action.DoSweep?
    ensures RowsOk(Step(w, action).campaign)
  {
    StepIsHandler(w, action);
    SweepKeepsRows(w.campaign, |w.campaign.assignments|, action.now);
  }

  lemma ElsewhereStepRows(w: World, action: Action)
    requires IsElsewhere(action)
    ensures Step(w, action).campaign == w.campaign
  {
  }

  /** Every handler keeps the tables right. */
  lemma StepKeepsRows(w: World, action: Action)
    requires RowsOk(w.campaign)
    ensures RowsOk(Step(w, action).campaign)
  {
    match action
    case DoUpdate(_) => BriefStepRows(w, action);
    case DoSetTargeting => BriefStepRows(w, action);
    case DoQuote(_, _) => BriefStepRows(w, action);
    case DoFund(_, _) => FundingKeepsRows(w, action);
    case DoCharge(_, _) => FundingKeepsRows(w, action);
    case DoApproveCampaign => ReviewKeepsRows(w, action);
    case DoRejectCampaign(_) => ReviewKeepsRows(w, action);
    case DoResubmit => ReviewKeepsRows(w, action);
    case DoSendOffers(_, _) => SendStepRows(w, action);
    case DoDecline(_, _) => OfferStatusStepRows(w, action);
    case DoExpire(_) => OfferStatusStepRows(w, action);
    case Elsewhere(_) => ElsewhereStepRows(w, action);
    case AccountElsewhere(_, _) => ElsewhereStepRows(w, action);
    case DoAccept(_, _, _) => AcceptStepRows(w, action);
    case DoSubmit(_, _, _) => ProofStepRows(w, action);
    case DoReject(_) => ProofStepRows(w, action);
    case DoApprove(_, _, _, _) => ApproveStepRows(w, action);
    case DoSweep(_) => SweepStepRows(w, action);
  }

  lemma {:induction false} RunKeepsRows(w: World, actions: seq<Action>)
    requires RowsOk(w.campaign)
    ensures RowsOk(RunWorld(w, actions).campaign)
    decreases |actions|
  {
    if actions != [] {
      RunKeepsRows(w, actions[..|actions| - 1]);
      StepKeepsRows(RunWorld(w, actions[..|actions| - 1]), actions[|actions| - 1]);
    }
  }
}
