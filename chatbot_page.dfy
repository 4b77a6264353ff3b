/**
 * The health chatbot page (`ChatbotPage`): a list of chats, the current one,
 * starting, selecting and deleting chats, and the input box that sends the
 * trimmed text with its attachments as a user message.
 */
module ChatbotPage {
  import opened Wrappers
  import opened Seqs
  import opened JsString

  datatype Attachment = Attachment(name: string, url: string, kind: string)
  datatype Sender = Ai | User
  datatype Msg = Msg(id: string, sender: Sender, text: string, time: string, attachments: seq<Attachment>)
  datatype Chat = Chat(id: string, title: string, createdAt: string, messages: seq<Msg>)

  const NewChatTitle: string := "새 채팅"
  const TitleLength: nat := 20

  /**
   * `useUserStore(s => s.userName) || '사용자'`. The user store defines no
   * `userName`, so in the program the selector yields `undefined` and the
   * fallback is always taken; the model keeps the name as a parameter.
   */
  function DisplayName(userName: string): (name: string)
    ensures name != ""
    ensures userName != "" ==> name == userName
    ensures userName == "" ==> name == "사용자"
  {
    if userName != "" then userName else "사용자"
  }

  /**
   * A fresh chat opened at clock reading `now` (milliseconds): its id is
   * `c_<now>`, its title the placeholder, and its only message the
   * assistant's greeting. `createdAt` and the greeting's `time` are the
   * formatted date and time, passed in.
   */
  function NewChat(now: nat, userName: string, createdAt: string, time: string): (c: Chat)
    ensures c.id == "c_" + DecimalString(now) && c.title == NewChatTitle && c.createdAt == createdAt
    ensures |c.messages| == 1 && c.messages[0].sender == Ai && c.messages[0].attachments == []
  {
    var greet := Msg("m_" + DecimalString(now), Ai,
                     "안녕하세요, " + DisplayName(userName) + "님! 무엇을 도와드릴까요?", time, []);
    Chat("c_" + DecimalString(now), NewChatTitle, createdAt, [greet])
  }

  function HasChatId(id: string): Chat -> bool
  {
    (c: Chat) => c.id == id
  }

  /** `current`: the first chat whose id is the current id, or none. */
  function Current(chats: seq<Chat>, currentId: Option<string>): (r: Option<Chat>)
    ensures r.Some? ==> currentId.Some? && r.value in chats && r.value.id == currentId.value
    ensures currentId.None? ==> r.None?
    ensures currentId.Some? && (exists i :: 0 <= i < |chats| && chats[i].id == currentId.value) ==> r.Some?
    ensures r.Some? ==> exists k :: 0 <= k < |chats| && chats[k] == r.value && forall j :: 0 <= j < k ==> chats[j].id != currentId.value
  {
    match currentId
    case None => None
    case Some(id) =>
      var r := Find(chats, HasChatId(id));
      assert forall i :: 0 <= i < |chats| && chats[i].id == id ==> HasChatId(id)(chats[i]);
      FindIsFirst(chats, HasChatId(id));
      r
  }

  /** A chat appended under an id no other chat has is the one `current` finds. */
  lemma CurrentFindsAppended(chats: seq<Chat>, c: Chat)
    requires forall i :: 0 <= i < |chats| ==> chats[i].id != c.id
    ensures Current(chats + [c], Some(c.id)) == Some(c)
  {
    var all := chats + [c];
    var r := Current(all, Some(c.id));
    assert all[|chats|] == c;
    assert r.value in all;
  }

  /** `updateChat`: the updater is applied to the chats with that id, every other chat is kept as it was. */
  function UpdateChat(chats: seq<Chat>, id: string, updater: Chat -> Chat): (r: seq<Chat>)
    ensures |r| == |chats|
    ensures forall i :: 0 <= i < |chats| && chats[i].id == id ==> r[i] == updater(chats[i])
    ensures forall i :: 0 <= i < |chats| && chats[i].id != id ==> r[i] == chats[i]
  {
    MapWhere(chats, HasChatId(id), updater)
  }

  function NotChatId(id: string): Chat -> bool
  {
    (c: Chat) => c.id != id
  }

  /** The chat list after `deleteChat(id)`: every chat with that id goes, the others keep their order. */
  function DeleteChat(chats: seq<Chat>, id: string): (r: seq<Chat>)
    ensures forall c :: c in r <==> c in chats && c.id != id
    ensures |r| <= |chats|
    ensures IsSubsequence(r, chats) && |r| == Count(chats, NotChatId(id))
  {
    var keep := NotChatId(id);
    FilterMembers(chats, keep);
    FilterInOrder(chats, keep);
    Filter(chats, keep)
  }

  /**
   * The current id after `deleteChat(id)`: when the deleted chat was the
   * current one, the first remaining chat's id (`list[0]?.id || null`, so an
   * empty id reads as none); otherwise the current id is kept.
   */
  function CurrentAfterDelete(chats: seq<Chat>, currentId: Option<string>, id: string): (r: Option<string>)
    ensures currentId != Some(id) ==> r == currentId
    ensures currentId == Some(id) && DeleteChat(chats, id) == [] ==> r.None?
    ensures (currentId == Some(id) && DeleteChat(chats, id) != [] && DeleteChat(chats, id)[0].id != "") ==>
              r == Some(DeleteChat(chats, id)[0].id)
    ensures r.Some? && currentId == Some(id) ==> r.value != id && exists c :: c in chats && c.id == r.value
  {
    if currentId != Some(id) then currentId
    else
      var rest := DeleteChat(chats, id);
      if rest != [] && rest[0].id != "" then
        assert rest[0] in rest;
        Some(rest[0].id)
      else None
  }

  /** After a deletion the current id, when there is one, still names a chat in the list, if it did before. */
  lemma DeleteKeepsCurrentValid(chats: seq<Chat>, currentId: Option<string>, id: string)
    requires currentId.Some? ==> exists c :: c in chats && c.id == currentId.value
    ensures var next := CurrentAfterDelete(chats, currentId, id);
            next.Some? ==> exists c :: c in DeleteChat(chats, id) && c.id == next.value
  {
    var next := CurrentAfterDelete(chats, currentId, id);
    var rest := DeleteChat(chats, id);
    if next.Some? {
      if currentId == Some(id) {
        assert rest[0] in rest;
      } else {
        var c :| c in chats && c.id == currentId.value;
        assert c in rest;
      }
    }
  }

  /** The title after a user message: the first twenty characters of a non-empty text while the placeholder is still there. */
  function TitleAfter(title: string, text: string): (r: string)
    ensures title != NewChatTitle ==> r == title
    ensures title == NewChatTitle && text != "" ==> r == Take(text, TitleLength) && r != ""
    ensures |text| <= TitleLength && text != "" && title == NewChatTitle ==> r == text
  {
    if title == NewChatTitle && text != "" then Take(text, TitleLength) else title
  }

  /** A chat renamed once is never renamed again by a later message. */
  lemma TitleSetOnce(title: string, first: string, second: string)
    requires first != "" && first[..if |first| < TitleLength then |first| else TitleLength] != NewChatTitle
    ensures TitleAfter(TitleAfter(title, first), second) == TitleAfter(title, first)
  {
  }

  /** The updater of `onSend`: the user's message goes at the end, and the title follows `TitleAfter`. */
  function AddUserMessage(c: Chat, msg: Msg): (r: Chat)
    ensures r.id == c.id && r.createdAt == c.createdAt
    ensures r.messages == c.messages + [msg]
    ensures r.title == TitleAfter(c.title, msg.text)
  {
    c.(title := TitleAfter(c.title, msg.text), messages := c.messages + [msg])
  }

  /** The attachment list after removing the preview at `idx`: only that position goes. */
  function RemoveAttachment(attachments: seq<Attachment>, idx: int): (r: seq<Attachment>)
    ensures 0 <= idx < |attachments| ==> |r| == |attachments| - 1
    ensures 0 <= idx < |attachments| ==> forall i :: 0 <= i < |r| ==> r[i] == if i < idx then attachments[i] else attachments[i + 1]
    ensures !(0 <= idx < |attachments|) ==> r == attachments
  {
    if 0 <= idx < |attachments| then attachments[..idx] + attachments[idx + 1..] else attachments
  }

  class ChatPage {
    /** `useUserStore(s => s.userName)`, read when a chat is started; the store has no such field, so in the program it is always empty. */
    const userName: string
    var chats: seq<Chat>
    var currentId: Option<string>
    var chatListOpen: bool

    constructor(name: string)
      ensures userName == name && chats == [] && currentId.None? && !chatListOpen
    {
      userName := name;
      chats, currentId, chatListOpen := [], None, false;
    }

    function CurrentChat(): Option<Chat>
      reads this
    {
      Current(chats, currentId)
    }

    /** The mount effect: an empty list gets one fresh chat, which becomes current; a non-empty one is left. */
    method EnsureChat(now: nat, createdAt: string, time: string)
      modifies this`chats, this`currentId
      ensures old(chats) == [] ==> chats == [NewChat(now, userName, createdAt, time)] && currentId == Some(chats[0].id)
      ensures old(chats) == [] ==> CurrentChat() == Some(chats[0])
      ensures old(chats) != [] ==> chats == old(chats) && currentId == old(currentId)
    {
      if chats == [] {
        var c := NewChat(now, userName, createdAt, time);
        chats := [c];
        currentId := Some(c.id);
        CurrentFindsAppended([], c);
        assert [] + [c] == [c];
      }
    }

    /** `startNewChat`: one fresh chat at the end, made current, and the chat list closes. */
    method StartNewChat(now: nat, createdAt: string, time: string)
      modifies this`chats, this`currentId, this`chatListOpen
      ensures chats == old(chats) + [NewChat(now, userName, createdAt, time)]
      ensures currentId == Some(NewChat(now, userName, createdAt, time).id) && !chatListOpen
      ensures (forall i :: 0 <= i < |old(chats)| ==> old(chats)[i].id != currentId.value) ==>
                CurrentChat() == Some(NewChat(now, userName, createdAt, time))
    {
      var c := NewChat(now, userName, createdAt, time);
      if forall i :: 0 <= i < |chats| ==> chats[i].id != c.id {
        CurrentFindsAppended(chats, c);
      }
      chats := chats + [c];
      currentId := Some(c.id);
      chatListOpen := false;
    }

    /** `deleteChat`. */
    method Delete(id: string)
      modifies this`chats, this`currentId
      ensures chats == DeleteChat(old(chats), id)
      ensures currentId == CurrentAfterDelete(old(chats), old(currentId), id)
    {
      currentId := CurrentAfterDelete(chats, currentId, id);
      chats := DeleteChat(chats, id);
    }

    /** `selectChat`. */
    method Select(id: string)
      modifies this`currentId, this`chatListOpen
      ensures currentId == Some(id) && !chatListOpen
    {
      currentId := Some(id);
      chatListOpen := false;
    }

    method ToggleChatList()
      modifies this`chatListOpen
      ensures chatListOpen == !old(chatListOpen)
    {
      chatListOpen := !chatListOpen;
    }

    /**
     * `onSend` up to the scheduled reply: without a current chat nothing
     * happens; otherwise the user's message, with id `m_<now>`, goes at the
     * end of the current chat and no other chat changes.
     */
    method Send(text: string, attachments: seq<Attachment>, now: nat, time: string) returns (sent: Option<Msg>)
      modifies this`chats
      ensures sent.None? <==> old(CurrentChat()).None?
      ensures sent.None? ==> chats == old(chats)
      ensures sent.Some? ==> sent.value == Msg("m_" + DecimalString(now), User, text, time, attachments)
      ensures sent.Some? ==> chats == UpdateChat(old(chats), old(CurrentChat()).value.id,
                                                 (c: Chat) => AddUserMessage(c, sent.value))
    {
      var current := CurrentChat();
      if current.None? {
        return None;
      }
      var msg := Msg("m_" + DecimalString(now), User, text, time, attachments);
      chats := UpdateChat(chats, current.value.id, (c: Chat) => AddUserMessage(c, msg));
      sent := Some(msg);
    }
  }

  /** The current chat grows by exactly the one user message. */
  lemma SendAppendsOne(chats: seq<Chat>, currentId: Option<string>, msg: Msg)
    requires Current(chats, currentId).Some?
    ensures var cur := Current(chats, currentId).value;
            var after := Current(UpdateChat(chats, cur.id, (c: Chat) => AddUserMessage(c, msg)), currentId);
            after == Some(AddUserMessage(cur, msg)) && after.value.messages == cur.messages + [msg]
  {
    var cur := Current(chats, currentId).value;
    var id := currentId.value;
    var f := (c: Chat) => AddUserMessage(c, msg);
    var updated := UpdateChat(chats, cur.id, f);
    var k :| 0 <= k < |chats| && chats[k] == cur && forall j :: 0 <= j < k ==> chats[j].id != id;
    FindAt(updated, HasChatId(id), k);
  }

  /** `Find` returns the element at the first position that satisfies the test. */
  lemma {:induction false} FindAt<T>(xs: seq<T>, p: T -> bool, k: nat)
    requires k < |xs| && p(xs[k]) && forall j :: 0 <= j < k ==> !p(xs[j])
    ensures Find(xs, p) == Some(xs[k])
  {
    if k > 0 {
      FindAt(xs[1..], p, k - 1);
    }
  }

  /** The input box (`ChatWindow`): the typed text and the attached files. */
  class ChatInput {
    var message: string
    var attachments: seq<Attachment>

    constructor()
      ensures message == "" && attachments == []
    {
      message, attachments := "", [];
    }

    method Type(text: string)
      modifies this`message
      ensures message == text
    {
      message := text;
    }

    /** `onFileSelected` with a file: its preview goes at the end. */
    method Attach(file: Attachment)
      modifies this`attachments
      ensures attachments == old(attachments) + [file]
    {
      attachments := attachments + [file];
    }

    /** The remove button of the preview at `idx`. */
    method Remove(idx: nat)
      modifies this`attachments
      ensures attachments == RemoveAttachment(old(attachments), idx)
    {
      attachments := RemoveAttachment(attachments, idx);
    }

    /**
     * `send`: a message that is blank after trimming is ignored and nothing
     * changes; otherwise the trimmed text and the attachments are handed to
     * `onSend`, and the box and the attachments are cleared.
     */
    method Submit() returns (out: Option<(string, seq<Attachment>)>)
      modifies this`message, this`attachments
      ensures out.None? <==> IsBlank(old(message))
      ensures out.None? ==> message == old(message) && attachments == old(attachments)
      ensures out.Some? ==> out.value == (Trim(old(message)), old(attachments)) && out.value.0 != ""
      ensures out.Some? ==> message == "" && attachments == []
    {
      if IsBlank(message) {
        return None;
      }
      out := Some((Trim(message), attachments));
      message, attachments := "", [];
    }
  }
}
