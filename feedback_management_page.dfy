/**
 * The administrator's feedback page (`FeedbackManagementPage`): type, status
 * and "mail requested" filters over the inbox, the unprocessed figure, one
 * expandable row with a reply editor, and sending a reply.
 */
module FeedbackManagementPage {
  import opened Wrappers
  import opened Seqs
  import opened JsString
  import opened AdminStore

  /** The type select: "all" or one type. */
  datatype TypeFilter = AnyType | OnlyType(kind: FeedbackType)

  /** The status select: "all" or one status. */
  datatype FeedbackStatusFilter = AnyFeedbackStatus | OnlyFeedbackStatus(status: FeedbackStatus)

  /** One row of `filteredFeedbacks`. */
  predicate Shown(f: Feedback, kind: TypeFilter, status: FeedbackStatusFilter, mailOnly: bool)
  {
    (kind.AnyType? || f.kind == kind.kind)
    && (status.AnyFeedbackStatus? || f.status == status.status)
    && (!mailOnly || f.replyByEmail)
  }

  function ShownBy(kind: TypeFilter, status: FeedbackStatusFilter, mailOnly: bool): Feedback -> bool
  {
    (f: Feedback) => Shown(f, kind, status, mailOnly)
  }

  /** `filteredFeedbacks`: the entries that pass all three filters, in inbox order. */
  function FilterFeedbacks(feedbacks: seq<Feedback>, kind: TypeFilter, status: FeedbackStatusFilter, mailOnly: bool): (r: seq<Feedback>)
    ensures forall f :: f in r <==> f in feedbacks && Shown(f, kind, status, mailOnly)
    ensures IsSubsequence(r, feedbacks) && |r| == Count(feedbacks, ShownBy(kind, status, mailOnly))
  {
    var keep := ShownBy(kind, status, mailOnly);
    FilterMembers(feedbacks, keep);
    FilterInOrder(feedbacks, keep);
    Filter(feedbacks, keep)
  }

  /** With every filter open, the whole inbox is listed in order. */
  lemma OpenFiltersShowAll(feedbacks: seq<Feedback>)
    ensures FilterFeedbacks(feedbacks, AnyType, AnyFeedbackStatus, false) == feedbacks
  {
    FilterKeepsAll(feedbacks, ShownBy(AnyType, AnyFeedbackStatus, false));
  }

  function HasId(id: int): Feedback -> bool
  {
    (f: Feedback) => f.id == id
  }

  /** `feedback?.adminReply || ''`: the stored reply of the first entry with the id, or the empty text. */
  function PrefilledReply(feedbacks: seq<Feedback>, id: int): (text: string)
    ensures (forall i :: 0 <= i < |feedbacks| ==> feedbacks[i].id != id) ==> text == ""
  {
    match Find(feedbacks, HasId(id))
    case None => ""
    case Some(f) => if f.adminReply.Some? then f.adminReply.value else ""
  }

  /** The part of the success notice naming the mail address: present exactly when the entry asked for mail and has a non-empty address. */
  function MailNotice(feedbacks: seq<Feedback>, id: int): (to: Option<string>)
    ensures to.Some? ==> to.value != "" && exists i :: 0 <= i < |feedbacks| && feedbacks[i].id == id && feedbacks[i].replyByEmail
  {
    match Find(feedbacks, HasId(id))
    case None => None
    case Some(f) =>
      if f.replyByEmail && f.email.Some? && f.email.value != "" then
        assert exists i :: 0 <= i < |feedbacks| && feedbacks[i] == f;
        Some(f.email.value)
      else None
  }

  /** On an inbox whose ids are distinct, the notice names the entry's address exactly when it asked for mail and has one. */
  lemma MailNoticeExactly(feedbacks: seq<Feedback>, k: int)
    requires 0 <= k < |feedbacks|
    requires forall i :: 0 <= i < |feedbacks| && feedbacks[i].id == feedbacks[k].id ==> i == k
    ensures var f := feedbacks[k];
      MailNotice(feedbacks, f.id) == (if f.replyByEmail && f.email.Some? && f.email.value != "" then Some(f.email.value) else None)
  {
    var found := Find(feedbacks, HasId(feedbacks[k].id));
    assert HasId(feedbacks[k].id)(feedbacks[k]);
    FindIsFirst(feedbacks, HasId(feedbacks[k].id));
    assert found.value == feedbacks[k];
  }

  /** On an inbox whose ids are distinct, opening a row pre-fills the editor with that entry's stored reply, or nothing. */
  lemma PrefilledReplyExactly(feedbacks: seq<Feedback>, k: int)
    requires 0 <= k < |feedbacks|
    requires forall i :: 0 <= i < |feedbacks| && feedbacks[i].id == feedbacks[k].id ==> i == k
    ensures PrefilledReply(feedbacks, feedbacks[k].id) == feedbacks[k].adminReply.GetOr("")
  {
    var found := Find(feedbacks, HasId(feedbacks[k].id));
    assert HasId(feedbacks[k].id)(feedbacks[k]);
    FindIsFirst(feedbacks, HasId(feedbacks[k].id));
    assert found.value == feedbacks[k];
  }

  datatype ReplyOutcome = ReplyBlank | ReplySent(mailTo: Option<string>)

  class FeedbackManagement {
    const inbox: Inbox
    var typeFilter: TypeFilter
    var statusFilter: FeedbackStatusFilter
    var mailOnly: bool
    var expandedId: Option<int>
    var replyText: string

    constructor(store: Inbox)
      ensures inbox == store
      ensures typeFilter == AnyType && statusFilter == AnyFeedbackStatus && !mailOnly
      ensures expandedId == None && replyText == ""
    {
      inbox := store;
      typeFilter, statusFilter, mailOnly := AnyType, AnyFeedbackStatus, false;
      expandedId, replyText := None, "";
    }

    /** The listed rows. */
    function Listed(): seq<Feedback>
      reads this, inbox
    {
      FilterFeedbacks(inbox.feedbacks, typeFilter, statusFilter, mailOnly)
    }

    /** The "미처리 건수" figure: entries not yet done, whatever the filters. */
    function Unprocessed(): (n: nat)
      reads this, inbox
      ensures n <= |inbox.feedbacks|
      ensures n == 0 <==> forall i :: 0 <= i < |inbox.feedbacks| ==> inbox.feedbacks[i].status == Done
    {
      UnprocessedCount(inbox.feedbacks)
    }

    /**
     * `toggleExpand`: the open row closes and its editor empties; any other
     * row opens with its stored reply in the editor.
     */
    method ToggleExpand(id: int)
      modifies this`expandedId, this`replyText
      ensures old(expandedId) == Some(id) ==> expandedId == None && replyText == ""
      ensures old(expandedId) != Some(id) ==> expandedId == Some(id) && replyText == PrefilledReply(inbox.feedbacks, id)
    {
      if expandedId == Some(id) {
        expandedId := None;
        replyText := "";
      } else {
        expandedId := Some(id);
        replyText := PrefilledReply(inbox.feedbacks, id);
      }
    }

    /** The type selector: the list follows it, the unprocessed figure does not. */
    method SetTypeFilter(kind: TypeFilter)
      modifies this`typeFilter
      ensures typeFilter == kind && Unprocessed() == old(Unprocessed())
    {
      typeFilter := kind;
    }

    /** The status selector: the list follows it, the unprocessed figure does not. */
    method SetStatusFilter(status: FeedbackStatusFilter)
      modifies this`statusFilter
      ensures statusFilter == status && Unprocessed() == old(Unprocessed())
    {
      statusFilter := status;
    }

    /** The "reply by mail only" box. */
    method SetMailOnly(on: bool)
      modifies this`mailOnly
      ensures mailOnly == on && Unprocessed() == old(Unprocessed())
    {
      mailOnly := on;
    }

    /** Typing in the open row's editor. */
    method SetReplyText(text: string)
      modifies this`replyText
      ensures replyText == text
    {
      replyText := text;
    }

    /** `handleStatusChange`. */
    method ChangeStatus(id: int, status: FeedbackStatus)
      modifies inbox
      ensures inbox.feedbacks == UpdateFeedbackStatus(old(inbox.feedbacks), id, status)
    {
      inbox.UpdateStatus(id, status);
    }

    /**
     * `handleSendReply`: a blank reply is refused and nothing changes;
     * otherwise the reply is stored as typed (the entry becomes done), the
     * notice names the mail address when one is due, and the row closes with
     * an empty editor.
     */
    method SendReply(id: int) returns (outcome: ReplyOutcome)
      modifies inbox, this`expandedId, this`replyText
      ensures outcome == ReplyBlank <==> IsBlank(old(replyText))
      ensures outcome == ReplyBlank ==>
        inbox.feedbacks == old(inbox.feedbacks) && expandedId == old(expandedId) && replyText == old(replyText)
      ensures outcome.ReplySent? ==>
        inbox.feedbacks == AddAdminReply(old(inbox.feedbacks), id, old(replyText))
        && outcome.mailTo == MailNotice(old(inbox.feedbacks), id)
        && expandedId == None && replyText == ""
    {
      if IsBlank(replyText) {
        return ReplyBlank;
      }
      var before := inbox.feedbacks;
      inbox.AddReply(id, replyText);
      outcome := ReplySent(MailNotice(before, id));
      expandedId := None;
      replyText := "";
    }
  }
}
