/**
 * The chat with the coach (components/AICoach.tsx): a transcript opened by
 * the coach's greeting, to which each send adds the user's message and,
 * once the service has answered, the coach's reply. The await between the
 * two is where `isLoading` is true, so a send is split into `Send` and
 * `Receive`.
 */
module AICoach {
  import opened Types
  import opened GeminiService

  const GreetingText: string :=
    "안녕하세요! 저는 당신의 하루를 응원하는 코치입니다. 오늘 기분은 어떠신가요? 편하게 이야기해 주세요."

  function Greeting(): ChatMessage
  {
    ChatMessage("1", Model, GreetingText)
  }

  /** The characters String.prototype.trim removes: white space and line terminators. */
  predicate IsTrimmed(c: char)
  {
    c == '\t' || c == '\n' || c == '\U{000B}' || c == '\U{000C}' || c == '\r' || c == ' '
    || c == '\U{00A0}' || c == '\U{1680}' || ('\U{2000}' <= c <= '\U{200A}')
    || c == '\U{2028}' || c == '\U{2029}' || c == '\U{202F}' || c == '\U{205F}'
    || c == '\U{3000}' || c == '\U{FEFF}'
  }

  /** Every character is white space, so nothing survives trimming. */
  predicate IsBlank(s: string)
  {
    forall i :: 0 <= i < |s| ==> IsTrimmed(s[i])
  }

  /** How many white-space characters the string starts with. */
  function LeadingBlanks(s: string): (n: nat)
    ensures n <= |s|
    ensures forall k :: 0 <= k < n ==> IsTrimmed(s[k])
    ensures n < |s| ==> !IsTrimmed(s[n])
  {
    if s == [] || !IsTrimmed(s[0]) then 0 else 1 + LeadingBlanks(s[1..])
  }

  /** How many white-space characters the string ends with. */
  function TrailingBlanks(s: string): (n: nat)
    ensures n <= |s|
    ensures forall k :: |s| - n <= k < |s| ==> IsTrimmed(s[k])
    ensures n < |s| ==> !IsTrimmed(s[|s| - 1 - n])
  {
    if s == [] || !IsTrimmed(s[|s| - 1]) then 0 else 1 + TrailingBlanks(s[..|s| - 1])
  }

  /**
   * String.prototype.trim: the part of the string between its leading and
   * trailing white space; it neither starts nor ends with white space, and
   * it is empty exactly when the string is blank.
   */
  function Trim(s: string): (r: string)
    ensures r == [] <==> IsBlank(s)
    ensures r != [] ==> !IsTrimmed(r[0]) && !IsTrimmed(r[|r| - 1])
    ensures exists i :: 0 <= i <= |s| - |r| && r == s[i..i + |r|]
                        && IsBlank(s[..i]) && IsBlank(s[i + |r|..])
  {
    var a := LeadingBlanks(s);
    if a == |s| then
      assert IsBlank(s[..0]) && IsBlank(s[0..]);
      []
    else
      var b := TrailingBlanks(s);
      assert a < |s| - b;
      var r := s[a..|s| - b];
      assert r == s[a..a + |r|] && s[a + |r|..] == s[|s| - b..];
      assert IsBlank(s[..a]) by {
        assert forall k :: 0 <= k < a ==> s[..a][k] == s[k];
      }
      assert IsBlank(s[|s| - b..]) by {
        var tail := s[|s| - b..];
        assert forall k :: 0 <= k < b ==> tail[k] == s[|s| - b + k];
      }
      r
  }

  datatype Part = Part(text: string)

  /** One turn of the history handed to the service. */
  datatype HistoryEntry = HistoryEntry(role: Role, parts: seq<Part>)

  /** The transcript as service history: one entry per message, same role, its text as the one part. */
  function History(msgs: seq<ChatMessage>): (h: seq<HistoryEntry>)
    ensures |h| == |msgs|
    ensures forall i :: 0 <= i < |h| ==> h[i].role == msgs[i].role && h[i].parts == [Part(msgs[i].text)]
  {
    seq(|msgs|, i requires 0 <= i < |msgs| => HistoryEntry(msgs[i].role, [Part(msgs[i].text)]))
  }

  /** Appending messages appends their entries: earlier history never changes. */
  lemma HistoryAppends(a: seq<ChatMessage>, b: seq<ChatMessage>)
    ensures History(a + b) == History(a) + History(b)
  {
  }

  /** What one send asks the service: the user's text and the history before it. */
  datatype ChatRequest = ChatRequest(message: string, history: seq<HistoryEntry>)

  /**
   * After the greeting, messages alternate user, coach, user, ...; an
   * odd position holds a user message and an even one a coach reply.
   */
  ghost predicate Alternating(msgs: seq<ChatMessage>)
  {
    |msgs| >= 1 && msgs[0] == Greeting() &&
    forall i :: 1 <= i < |msgs| ==> msgs[i].role == if i % 2 == 1 then User else Model
  }

  /** The component's state. */
  class Coach {
    var messages: seq<ChatMessage>
    var input: string
    var isLoading: bool

    /** The transcript alternates, and a reply is pending exactly when it ends with the user. */
    ghost predicate Valid()
      reads this
    {
      Alternating(messages) && (isLoading <==> |messages| % 2 == 0)
    }

    constructor ()
      ensures Valid() && messages == [Greeting()] && input == "" && !isLoading
    {
      messages := [Greeting()];
      input := "";
      isLoading := false;
    }

    method SetInput(text: string)
      modifies this`input
      ensures input == text
    {
      input := text;
    }

    /**
     * The first half of handleSend: ignored when the input is blank or a
     * reply is pending; otherwise the user's message is appended, the input
     * cleared, loading set, and the request for the service returned.
     */
    method Send(userId: string) returns (request: Option<ChatRequest>)
      requires Valid()
      modifies this
      ensures Valid()
      ensures IsBlank(old(input)) || old(isLoading) ==>
                request == None && messages == old(messages) && input == old(input)
                && isLoading == old(isLoading)
      ensures !IsBlank(old(input)) && !old(isLoading) ==>
                request == Some(ChatRequest(old(input), History(old(messages))))
                && messages == old(messages) + [ChatMessage(userId, User, old(input))]
                && input == "" && isLoading
    {
      if Trim(input) == [] || isLoading {
        return None;
      }
      var userMsg := ChatMessage(userId, User, input);
      var history := History(messages);
      messages := messages + [userMsg];
      input := "";
      isLoading := true;
      request := Some(ChatRequest(userMsg.text, history));
    }

    /**
     * The second half of handleSend, once the service has answered: the
     * coach's reply (the apology if the call failed) is appended and
     * loading is cleared.
     */
    method Receive(reply: TextReply, replyId: string)
      requires Valid() && isLoading
      modifies this`messages, this`isLoading
      ensures Valid()
      ensures messages == old(messages) + [ChatMessage(replyId, Model, ChatWithCoach(reply))]
      ensures !isLoading
    {
      var responseText := ChatWithCoach(reply);
      messages := messages + [ChatMessage(replyId, Model, responseText)];
      isLoading := false;
    }
  }
}
