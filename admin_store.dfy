/** The administrator's feedback inbox (`useAdminStore`): five seeded entries, a status change and a reply action. */
module AdminStore {
  import opened Wrappers
  import opened Seqs

  datatype FeedbackType = Bug | Suggestion | Inquiry | Other
  datatype FeedbackStatus = New | InProgress | Done

  datatype Feedback = Feedback(id: int, user: string, kind: FeedbackType, title: string, content: string,
                               email: Option<string>, replyByEmail: bool, status: FeedbackStatus, date: string,
                               adminReply: Option<string>)

  /** The seeded inbox. */
  const InitialFeedbacks: seq<Feedback> := [
    Feedback(1, "홍길동", Bug, "로그인 오류 제보", "로그인할 때 가끔 멈춥니다.",
             Some("hong@example.com"), true, New, "방금 전", None),
    Feedback(2, "김철수", Suggestion, "다크 모드 기능 제안", "밤에 눈이 부셔요.",
             Some(""), false, InProgress, "10분 전", None),
    Feedback(3, "이영희", Inquiry, "탈퇴 시 데이터 삭제 문의", "복구 가능한가요?",
             Some("lee@test.com"), true, Done, "1시간 전", Some("복구 불가능합니다.")),
    Feedback(4, "박민수", Other, "앱 디자인 칭찬", "예쁘네요!",
             Some(""), false, New, "3시간 전", None),
    Feedback(5, "최유리", Bug, "이미지 업로드 실패", "사진이 안 올라가요.",
             Some("choi@test.com"), true, New, "5시간 전", None)
  ]

  predicate Unprocessed(f: Feedback)
  {
    f.status != Done
  }

  /** How many entries are not done yet (the "미처리 건수" figure). */
  function UnprocessedCount(feedbacks: seq<Feedback>): (n: nat)
    ensures n <= |feedbacks|
    ensures n == 0 <==> forall i :: 0 <= i < |feedbacks| ==> feedbacks[i].status == Done
  {
    CountZeroIff(feedbacks, Unprocessed);
    Count(feedbacks, Unprocessed)
  }

  /** The seeded inbox has ids 1 to 5 in order. */
  lemma InitialIds()
    ensures forall i :: 0 <= i < |InitialFeedbacks| ==> InitialFeedbacks[i].id == i + 1
  {
  }

  /** `updateFeedbackStatus`: entries with the id take the new status; nothing else changes. */
  function UpdateFeedbackStatus(feedbacks: seq<Feedback>, id: int, status: FeedbackStatus): (r: seq<Feedback>)
    ensures |r| == |feedbacks|
    ensures forall i :: 0 <= i < |r| ==> r[i] == if feedbacks[i].id == id then feedbacks[i].(status := status) else feedbacks[i]
  {
    MapWhere(feedbacks, (f: Feedback) => f.id == id, (f: Feedback) => f.(status := status))
  }

  /** `addAdminReply`: entries with the id get the reply and become done; nothing else changes. */
  function AddAdminReply(feedbacks: seq<Feedback>, id: int, reply: string): (r: seq<Feedback>)
    ensures |r| == |feedbacks|
    ensures forall i :: 0 <= i < |r| ==>
      if feedbacks[i].id == id then r[i] == feedbacks[i].(adminReply := Some(reply), status := Done)
      else r[i] == feedbacks[i]
  {
    MapWhere(feedbacks, (f: Feedback) => f.id == id, (f: Feedback) => f.(adminReply := Some(reply), status := Done))
  }

  /** Replying never raises the number of unprocessed entries. */
  lemma ReplyNeverAddsUnprocessed(feedbacks: seq<Feedback>, id: int, reply: string)
    ensures UnprocessedCount(AddAdminReply(feedbacks, id, reply)) <= UnprocessedCount(feedbacks)
  {
    CountMapWhereNoMore(feedbacks, (f: Feedback) => f.id == id,
                        (f: Feedback) => f.(adminReply := Some(reply), status := Done),
                        Unprocessed);
  }

  /** Marking as done is what replying does to the status; replying also records the text. */
  lemma ReplyMarksDone(feedbacks: seq<Feedback>, id: int, reply: string)
    ensures var r := AddAdminReply(feedbacks, id, reply);
      forall i :: 0 <= i < |r| ==> r[i].status == UpdateFeedbackStatus(feedbacks, id, Done)[i].status
  {
  }

  class Inbox {
    var feedbacks: seq<Feedback>

    constructor()
      ensures feedbacks == InitialFeedbacks
    {
      feedbacks := InitialFeedbacks;
    }

    method UpdateStatus(id: int, status: FeedbackStatus)
      modifies this
      ensures feedbacks == UpdateFeedbackStatus(old(feedbacks), id, status)
    {
      feedbacks := UpdateFeedbackStatus(feedbacks, id, status);
    }

    method AddReply(id: int, reply: string)
      modifies this
      ensures feedbacks == AddAdminReply(old(feedbacks), id, reply)
    {
      feedbacks := AddAdminReply(feedbacks, id, reply);
    }
  }
}
