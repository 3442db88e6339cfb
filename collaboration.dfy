/** The collaboration page (client/src/pages/Collaboration.tsx): the chat
    composer with its message list and input field, and the view/edit
    permission toggle. */
module Collaboration {
  import opened MindMapTypes

  const YouUser: string := "You"

  datatype Permission = View | Edit

  /** The white space `String.prototype.trim` removes: the WhiteSpace and
      LineTerminator code points of ECMAScript (tab, vertical tab, form feed,
      space, no-break space, byte order mark, the other space separators, line
      feed, carriage return, line and paragraph separator). */
  predicate IsWhitespace(c: char) {
    || c == '\t' || c == '\n' || c == '\U{B}' || c == '\U{C}' || c == '\r' || c == ' '
    || c == '\U{A0}' || c == '\U{1680}' || ('\U{2000}' <= c <= '\U{200A}')
    || c == '\U{2028}' || c == '\U{2029}' || c == '\U{202F}' || c == '\U{205F}'
    || c == '\U{3000}' || c == '\U{FEFF}'
  }

  predicate IsBlank(s: string) {
    forall i :: 0 <= i < |s| ==> IsWhitespace(s[i])
  }

  /** `s` without its leading white space. */
  function TrimStart(s: string): (r: string)
    ensures |r| <= |s| && r == s[|s| - |r|..]
    ensures r == [] || !IsWhitespace(r[0])
    ensures IsBlank(s[..|s| - |r|])
  {
    if s != [] && IsWhitespace(s[0]) then TrimStart(s[1..]) else s
  }

  /** `s` without its trailing white space. */
  function TrimEnd(s: string): (r: string)
    ensures |r| <= |s| && r == s[..|r|]
    ensures r == [] || !IsWhitespace(r[|r| - 1])
    ensures IsBlank(s[|r|..])
  {
    if s != [] && IsWhitespace(s[|s| - 1]) then TrimEnd(s[..|s| - 1]) else s
  }

  /** `s.trim()`. */
  function Trim(s: string): string {
    TrimEnd(TrimStart(s))
  }

  /** `s.trim()` is falsy exactly when `s` is blank. */
  lemma TrimEmptyIffBlank(s: string)
    ensures Trim(s) == "" <==> IsBlank(s)
  {
  }

  /** The three messages the page starts with; `t1`, `t2` and `t3` are the
      readings of their three `new Date()` calls. */
  function Seeded(t1: Time, t2: Time, t3: Time): (r: seq<ChatMessage>)
    ensures |r| == 3
    ensures r[0].id == "1" && r[0].user == "Alex" && r[0].message == "Let's finalize this map." && r[0].timestamp == t1
    ensures r[1].id == "2" && r[1].user == "Jamie" && r[1].message == "Sure, I'm adding my notes." && r[1].timestamp == t2
    ensures r[2].id == "3" && r[2].user == "Sam" && r[2].message == "Reviewing the changes now." && r[2].timestamp == t3
  {
    [ ChatMessage("1", "Alex", "Let's finalize this map.", t1),
      ChatMessage("2", "Jamie", "Sure, I'm adding my notes.", t2),
      ChatMessage("3", "Sam", "Reviewing the changes now.", t3) ]
  }

  /** The state of the collaboration page. */
  class ChatPanel {
    var permission: Permission
    var newMessage: string
    var messages: seq<ChatMessage>

    /** The initial state; `t1`, `t2` and `t3` stamp the seeded messages. */
    constructor (t1: Time, t2: Time, t3: Time)
      ensures permission == View && newMessage == "" && messages == Seeded(t1, t2, t3)
    {
      permission, newMessage, messages := View, "", Seeded(t1, t2, t3);
    }

    /** The `onChange` of the message input. */
    method SetNewMessage(text: string)
      modifies this
      ensures newMessage == text && messages == old(messages) && permission == old(permission)
    {
      newMessage := text;
    }

    /** `sendMessage`: a blank input is ignored; otherwise the untrimmed
        input is appended as a message of "You" and the input is cleared.
        `id` and `now` stand for `Date.now().toString()` and `new Date()`. */
    method SendMessage(id: string, now: Time)
      modifies this
      ensures IsBlank(old(newMessage)) ==> messages == old(messages) && newMessage == old(newMessage)
      ensures !IsBlank(old(newMessage)) ==>
                && messages == old(messages) + [ChatMessage(id, YouUser, old(newMessage), now)]
                && newMessage == ""
      ensures permission == old(permission)
    {
      TrimEmptyIffBlank(newMessage);
      if Trim(newMessage) != "" {
        messages := messages + [ChatMessage(id, YouUser, newMessage, now)];
        newMessage := "";
      }
    }

    /** The `onChange` of the two permission radio buttons, whose values are
        'view' and 'edit'. */
    method SetPermission(p: Permission)
      modifies this
      ensures permission == p && newMessage == old(newMessage) && messages == old(messages)
    {
      permission := p;
    }
  }
}
