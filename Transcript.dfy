/**
 * The conversation as the edge functions receive it: a list of `{role, content}` messages.
 * Roles are free strings on the server side; the chat page only ever writes "user" and "assistant".
 */
module Transcript {
  import opened Text

  datatype Message = Message(role: string, content: string)

  /** `messages.map(m => m.content)`: every message's text, whatever its role. */
  function Contents(messages: seq<Message>): (r: seq<string>)
    ensures |r| == |messages|
    ensures forall i :: 0 <= i < |messages| ==> r[i] == messages[i].content
  {
    seq(|messages|, i requires 0 <= i < |messages| => messages[i].content)
  }

  /** `messages.filter(m => m.role === 'user').map(m => m.content)`. */
  function UserContents(messages: seq<Message>): seq<string>
  {
    if messages == [] then []
    else (if messages[0].role == "user" then [messages[0].content] else []) + UserContents(messages[1..])
  }

  /** The number of user-role messages: the length of the filtered list. */
  function UserCount(messages: seq<Message>): nat
  {
    |UserContents(messages)|
  }

  /** `conversationSummary`: the user messages' texts joined by single spaces. */
  function UserSummary(messages: seq<Message>): string
  {
    Join(UserContents(messages), " ")
  }

  /** Filtering keeps exactly the user-role messages, in order: one more message adds its text only if it is the user's. */
  lemma {:induction false} UserContentsSnoc(messages: seq<Message>, m: Message)
    ensures UserContents(messages + [m]) == UserContents(messages) + (if m.role == "user" then [m.content] else [])
  {
    if messages == [] {
      assert messages + [m] == [m];
    } else {
      var h := if messages[0].role == "user" then [messages[0].content] else [];
      var x := if m.role == "user" then [m.content] else [];
      assert (messages + [m])[0] == messages[0];
      assert (messages + [m])[1..] == messages[1..] + [m];
      UserContentsSnoc(messages[1..], m);
      assert UserContents(messages + [m]) == h + (UserContents(messages[1..]) + x);
      assert h + (UserContents(messages[1..]) + x) == (h + UserContents(messages[1..])) + x;
    }
  }

  /** Every text in the filtered list is the text of a user-role message. */
  lemma {:induction false} UserContentsOnlyUsers(messages: seq<Message>)
    ensures forall c | c in UserContents(messages) :: exists i :: 0 <= i < |messages| && messages[i].role == "user" && messages[i].content == c
  {
    if messages != [] {
      UserContentsOnlyUsers(messages[1..]);
      forall c | c in UserContents(messages)
        ensures exists i :: 0 <= i < |messages| && messages[i].role == "user" && messages[i].content == c
      {
        if messages[0].role == "user" && c == messages[0].content {
          assert messages[0].role == "user" && messages[0].content == c;
        } else {
          assert c in UserContents(messages[1..]);
          var i :| 0 <= i < |messages[1..]| && messages[1..][i].role == "user" && messages[1..][i].content == c;
          assert messages[i + 1] == messages[1..][i];
        }
      }
    }
  }

  /** The summary grows by a space and the new text for a user message, and not at all for any other role. */
  lemma UserSummarySnoc(messages: seq<Message>, m: Message)
    ensures m.role != "user" ==> UserSummary(messages + [m]) == UserSummary(messages)
    ensures m.role == "user" ==>
      UserSummary(messages + [m]) == (if UserCount(messages) == 0 then m.content else UserSummary(messages) + " " + m.content)
  {
    UserContentsSnoc(messages, m);
    if m.role == "user" {
      JoinSnoc(UserContents(messages), m.content, " ");
    } else {
      assert UserContents(messages) + [] == UserContents(messages);
    }
  }
}
