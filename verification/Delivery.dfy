/**
 * src/common/delivery/delivery.ts: an assignment's status as the roll-up of its posts, and the re-allocation trigger.
 */
module Delivery {
  import opened Common

  datatype PostStatus = Pending | Submitted | Approved | Rejected | Missed

  datatype AssignmentStatus = InProgress | SubmittedWork | ApprovedWork | RejectedWork | Paid | Cancelled

  datatype PostView = PostView(index: int, status: PostStatus)

  predicate Resolved(s: PostStatus) { s.Approved? || s.Missed? }

  /** Still to be done by the promoter: what a missed deadline forfeits. */
  predicate Outstanding(s: PostStatus) { s.Pending? || s.Rejected? }

  datatype Rollup = Rollup(status: AssignmentStatus, allResolved: bool, anyApproved: bool)

  predicate AllResolved(posts: seq<PostView>) { forall i :: 0 <= i < |posts| ==> Resolved(posts[i].status) }

  predicate AnyIs(posts: seq<PostView>, s: PostStatus) { exists i :: 0 <= i < |posts| && posts[i].status == s }

  /** computeAssignmentRollup. */
  function ComputeRollup(posts: seq<PostView>): Rollup
  {
    var status :=
      if AllResolved(posts) then (if AnyIs(posts, Approved) then Paid else Cancelled)
      else if AnyIs(posts, Pending) || AnyIs(posts, Rejected) then InProgress
      else if AnyIs(posts, Submitted) then SubmittedWork
      else InProgress;
    Rollup(status, AllResolved(posts), AnyIs(posts, Approved))
  }

  /** The roll-up never reaches its last branch: what is neither resolved nor outstanding is in review. */
  lemma RollupReadsBack(posts: seq<PostView>)
    ensures var r := ComputeRollup(posts);
            && (r.status.Paid? || r.status.Cancelled? <==> forall i :: 0 <= i < |posts| ==> Resolved(posts[i].status))
            && (r.status.InProgress? <==> exists i :: 0 <= i < |posts| && Outstanding(posts[i].status))
            && (r.status.SubmittedWork?
               <==> AnyIs(posts, Submitted) && forall i :: 0 <= i < |posts| ==> !Outstanding(posts[i].status))
            && (r.status.Cancelled? <==> forall i :: 0 <= i < |posts| ==> posts[i].status.Missed?)
  {
    if !AllResolved(posts) {
      var i :| 0 <= i < |posts| && !Resolved(posts[i].status);
      assert posts[i].status.Pending? || posts[i].status.Rejected? || posts[i].status.Submitted?;
    }
  }

  /** The stored status of an assignment, read straight off its posts. */
  lemma RollupTellsPosts(posts: seq<PostView>)
    ensures var status := ComputeRollup(posts).status;
            && (status == InProgress
                <==> exists i :: 0 <= i < |posts| && (posts[i].status == Pending || posts[i].status == Rejected))
            && (status == SubmittedWork
                <==> (exists i :: 0 <= i < |posts| && posts[i].status == Submitted)
                     && forall i :: 0 <= i < |posts| ==> posts[i].status != Pending && posts[i].status != Rejected)
            && (status == Paid
                <==> (exists i :: 0 <= i < |posts| && posts[i].status == Approved)
                     && forall i :: 0 <= i < |posts| ==> posts[i].status == Approved || posts[i].status == Missed)
            && (status == Cancelled <==> forall i :: 0 <= i < |posts| ==> posts[i].status == Missed)
  {
    RollupReadsBack(posts);
    if i :| 0 <= i < |posts| && (posts[i].status == Pending || posts[i].status == Rejected) {
      assert Outstanding(posts[i].status);
    }
    if i :| 0 <= i < |posts| && posts[i].status == Submitted {
      assert AnyIs(posts, Submitted) && !Resolved(posts[i].status);
    }
  }

  // ---- Consecutive misses ----

  predicate SortedByIndex(s: seq<PostView>) { forall i, j :: 0 <= i < j < |s| ==> s[i].index <= s[j].index }

  function Insert(s: seq<PostView>, p: PostView): seq<PostView>
  {
    if s == [] || s[|s| - 1].index <= p.index then s + [p] else Insert(s[..|s| - 1], p) + [s[|s| - 1]]
  }

  /** The stable sort by index. */
  function Sorted(s: seq<PostView>): seq<PostView>
  {
    if s == [] then [] else Insert(Sorted(s[..|s| - 1]), s[|s| - 1])
  }

  lemma {:induction false} InsertElements(s: seq<PostView>, p: PostView)
    ensures multiset(Insert(s, p)) == multiset(s) + multiset{p}
    decreases |s|
  {
    if s != [] && p.index < s[|s| - 1].index {
      InsertElements(s[..|s| - 1], p);
      assert s == s[..|s| - 1] + [s[|s| - 1]];
    }
  }

  lemma {:induction false} InsertKeepsOrder(s: seq<PostView>, p: PostView)
    requires SortedByIndex(s)
    ensures SortedByIndex(Insert(s, p))
    ensures forall k :: 0 <= k < |Insert(s, p)| ==> Insert(s, p)[k] == p || Insert(s, p)[k] in s
    decreases |s|
  {
    if s != [] && p.index < s[|s| - 1].index {
      var front, last := s[..|s| - 1], s[|s| - 1];
      InsertKeepsOrder(front, p);
      var t := Insert(front, p);
      forall k | 0 <= k < |t| ensures t[k].index <= last.index && (t[k] == p || t[k] in s) {
        if t[k] != p {
          var j :| 0 <= j < |front| && front[j] == t[k];
          assert s[j] == t[k];
        }
      }
    }
  }

  lemma {:induction false} SortedSorts(s: seq<PostView>)
    ensures SortedByIndex(Sorted(s)) && multiset(Sorted(s)) == multiset(s)
    decreases |s|
  {
    if s != [] {
      SortedSorts(s[..|s| - 1]);
      assert s == s[..|s| - 1] + [s[|s| - 1]];
      InsertElements(Sorted(s[..|s| - 1]), s[|s| - 1]);
      InsertKeepsOrder(Sorted(s[..|s| - 1]), s[|s| - 1]);
    }
  }

  lemma LastInserts(s: seq<PostView>, p: PostView)
    requires s == [] || s[|s| - 1].index <= p.index
    ensures Insert(s, p) == s + [p]
  {
  }

  lemma {:induction false} SortedIsIdentity(s: seq<PostView>)
    requires SortedByIndex(s)
    ensures Sorted(s) == s
    decreases |s|
  {
    if s != [] {
      var front := s[..|s| - 1];
      SortedIsIdentity(front);
      LastInserts(front, s[|s| - 1]);
      assert s == front + [s[|s| - 1]];
    }
  }

  predicate MissedRun(s: seq<PostView>, i: int, length: int)
    requires 0 <= i && 0 <= length && i + length <= |s|
  {
    forall k :: i <= k < i + length ==> s[k].status.Missed?
  }

  /** `threshold` posts missed back to back in schedule order (one at least: a run is only counted at a missed post). */
  predicate ConsecutiveMisses(s: seq<PostView>, threshold: int)
  {
    var t := Max(1, threshold);
    exists i :: 0 <= i && i + t <= |s| && MissedRun(s, i, t)
  }

  /** hasConsecutiveMisses: one pass over the sorted copy, counting the current run. */
  method HasConsecutiveMisses(posts: seq<PostView>, threshold: int) returns (found: bool)
    ensures found == ConsecutiveMisses(Sorted(posts), threshold)
  {
    var ordered := Sorted(posts);
    var t := Max(1, threshold);
    var run := 0;
    for k := 0 to |ordered|
      invariant 0 <= run <= k && run < t
      invariant MissedRun(ordered, k - run, run)
      invariant run < k ==> !ordered[k - run - 1].status.Missed?
      invariant forall i :: 0 <= i && i + t <= k ==> !MissedRun(ordered, i, t)
    {
      if ordered[k].status.Missed? {
        run := run + 1;
        if run >= threshold {
          assert MissedRun(ordered, k + 1 - run, run);
          return true;
        }
        forall i | 0 <= i && i + t == k + 1 ensures !MissedRun(ordered, i, t) {
          assert i <= k - run && !ordered[k - run].status.Missed?;
        }
      } else {
        run := 0;
      }
    }
    return false;
  }

  // ---- Keep or pull ----

  function ApprovedCount(posts: seq<PostView>): nat
  {
    if posts == [] then 0
    else ApprovedCount(posts[..|posts| - 1]) + (if posts[|posts| - 1].status.Approved? then 1 else 0)
  }

  function ApprovedOne(v: PostView): int { if v.status.Approved? then 1 else 0 }

  lemma {:induction false} ApprovedCountIsSum(posts: seq<PostView>)
    ensures ApprovedCount(posts) == Sum(ApprovedOne, posts)
    decreases |posts|
  {
    if posts != [] {
      ApprovedCountIsSum(posts[..|posts| - 1]);
    }
  }

  const MISS_THRESHOLD := 2

  /** reconcileAfterMisses: pull when reach is owed and the promoter missed a one-off, or two posts in a row. */
  predicate ShouldPull(posts: seq<PostView>)
  {
    0 < |posts| - ApprovedCount(posts) && (|posts| == 1 || ConsecutiveMisses(Sorted(posts), MISS_THRESHOLD))
  }

  lemma {:induction false} ApprovedAreSome(posts: seq<PostView>)
    ensures ApprovedCount(posts) <= |posts|
    ensures ApprovedCount(posts) < |posts| <==> exists i :: 0 <= i < |posts| && posts[i].status != Approved
    decreases |posts|
  {
    if posts != [] {
      var n := |posts| - 1;
      ApprovedAreSome(posts[..n]);
      assert forall i :: 0 <= i < n ==> posts[..n][i] == posts[i];
      if i :| 0 <= i < n && posts[i].status != Approved {
        assert posts[..n][i].status != Approved;
      }
    }
  }

  predicate MissedAt(posts: seq<PostView>, i: int)
  {
    0 <= i < |posts| && posts[i].status == Missed
  }

  /** Two posts in a row were missed. */
  predicate NeighboursMissed(posts: seq<PostView>)
  {
    exists i :: 0 <= i < |posts| - 1 && MissedAt(posts, i) && MissedAt(posts, i + 1)
  }

  lemma TwoInARow(posts: seq<PostView>)
    ensures ConsecutiveMisses(posts, MISS_THRESHOLD) <==> NeighboursMissed(posts)
  {
    if i :| 0 <= i < |posts| - 1 && MissedAt(posts, i) && MissedAt(posts, i + 1) {
      assert MissedRun(posts, i, Max(1, MISS_THRESHOLD));
    }
    if ConsecutiveMisses(posts, MISS_THRESHOLD) {
      var i :| 0 <= i && i + 2 <= |posts| && MissedRun(posts, i, 2);
      assert MissedAt(posts, i) && MissedAt(posts, i + 1);
    }
  }

  /** When a promoter is taken off: something is left to deliver, and the only post or two neighbours were missed. */
  lemma PullIsDue(posts: seq<PostView>)
    requires SortedByIndex(posts)
    ensures ShouldPull(posts)
            <==> (exists i :: 0 <= i < |posts| && posts[i].status != Approved)
                 && (|posts| == 1 || NeighboursMissed(posts))
  {
    ApprovedAreSome(posts);
    SortedIsIdentity(posts);
    TwoInARow(posts);
  }

  lemma {:induction false} NoneApproved(posts: seq<PostView>)
    requires forall i :: 0 <= i < |posts| ==> !posts[i].status.Approved?
    ensures ApprovedCount(posts) == 0
    decreases |posts|
  {
    if posts != [] {
      assert forall i :: 0 <= i < |posts| - 1 ==> posts[..|posts| - 1][i] == posts[i];
      NoneApproved(posts[..|posts| - 1]);
    }
  }

  lemma AllMissedIsPulled(posts: seq<PostView>)
    requires posts != [] && forall i :: 0 <= i < |posts| ==> posts[i].status.Missed?
    ensures ShouldPull(posts)
  {
    NoneApproved(posts);
    SortedSorts(posts);
    var s := Sorted(posts);
    assert |s| == |multiset(s)| == |multiset(posts)| == |posts|;
    forall k | 0 <= k < |s| ensures s[k].status.Missed? {
      assert s[k] in multiset(s);
      assert s[k] in posts;
    }
    if 2 <= |posts| {
      assert MissedRun(s, 0, Max(1, MISS_THRESHOLD)) && ConsecutiveMisses(s, MISS_THRESHOLD);
    }
  }

  /** Whatever list is kept, its roll-up is not CANCELLED: if nothing but misses were left it would have been pulled. */
  lemma KeptIsNeverCancelled(posts: seq<PostView>)
    requires posts != [] && !ShouldPull(posts)
    ensures !ComputeRollup(posts).status.Cancelled?
  {
    RollupReadsBack(posts);
    if forall i :: 0 <= i < |posts| ==> posts[i].status.Missed? {
      AllMissedIsPulled(posts);
    }
  }

  /** outstandingCount: posts the promoter can still act on. */
  function OutstandingCount(posts: seq<PostView>): nat
  {
    if posts == [] then 0
    else OutstandingCount(posts[..|posts| - 1]) + (if Outstanding(posts[|posts| - 1].status) then 1 else 0)
  }

  /** The outstanding count is positive exactly while the roll-up says there is still work to do. */
  lemma {:induction false} OutstandingIsInProgress(posts: seq<PostView>)
    ensures 0 < OutstandingCount(posts) <==> ComputeRollup(posts).status.InProgress?
    decreases |posts|
  {
    RollupReadsBack(posts);
    if posts != [] {
      var front := posts[..|posts| - 1];
      OutstandingIsInProgress(front);
      RollupReadsBack(front);
      assert posts == front + [posts[|posts| - 1]];
    }
  }
}
