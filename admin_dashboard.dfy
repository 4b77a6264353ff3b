/** The administrator's dashboard (`AdminDashboard`): the "unhandled feedback" card and its preview list. */
module AdminDashboard {
  import opened Wrappers
  import opened Seqs
  import opened AdminStore

  const PendingLimit: nat := 5

  predicate IsNew(f: Feedback)
  {
    f.status == New
  }

  /** `pendingFeedbacks`: the first five entries that are still new, in inbox order. */
  function PendingFeedbacks(feedbacks: seq<Feedback>): (r: seq<Feedback>)
    ensures |r| <= PendingLimit
    ensures forall i :: 0 <= i < |r| ==> r[i] in feedbacks && r[i].status == New
    ensures r <= Filter(feedbacks, IsNew)
    ensures |r| == if Count(feedbacks, IsNew) < PendingLimit then Count(feedbacks, IsNew) else PendingLimit
  {
    Take(Filter(feedbacks, IsNew), PendingLimit)
  }

  /** The card's figure, `pendingFeedbacks.length`. */
  function PendingCount(feedbacks: seq<Feedback>): (n: nat)
    ensures n <= PendingLimit
  {
    |PendingFeedbacks(feedbacks)|
  }

  /** The card's alert style. */
  predicate ShowAlert(feedbacks: seq<Feedback>)
  {
    PendingCount(feedbacks) > 0
  }

  /** The alert shows exactly when some entry is still new. */
  lemma AlertIffSomeNew(feedbacks: seq<Feedback>)
    ensures ShowAlert(feedbacks) <==> exists i :: 0 <= i < |feedbacks| && feedbacks[i].status == New
  {
    CountZeroIff(feedbacks, IsNew);
  }

  /** Replying to an entry can only lower the card's figure. */
  lemma ReplyNeverRaisesPending(feedbacks: seq<Feedback>, id: int, reply: string)
    ensures PendingCount(AddAdminReply(feedbacks, id, reply)) <= PendingCount(feedbacks)
  {
    CountMapWhereNoMore(feedbacks, (f: Feedback) => f.id == id,
                        (f: Feedback) => f.(adminReply := Some(reply), status := Done),
                        IsNew);
    assert AddAdminReply(feedbacks, id, reply) == MapWhere(feedbacks, (f: Feedback) => f.id == id,
                        (f: Feedback) => f.(adminReply := Some(reply), status := Done));
  }
}
