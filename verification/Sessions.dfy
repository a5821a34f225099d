/** The bounded conversation store (sessions.py). */
module Sessions {
  import opened Common
  import opened Text

  datatype Role = User | Assistant

  datatype Message = Message(role: Role, content: string)

  datatype Call = AppendTurn(session: string, user: string, assistant: string) | Clear(session: string)

  /**
   Everything a call appends: the constructor of Message raises on a blank text, and the user
   message is already in the history when the assistant's text is found to be blank.
   */
  function Appended(user: string, assistant: string): seq<Message> {
    if Blank(user) then []
    else if Blank(assistant) then [Message(User, user)]
    else [Message(User, user), Message(Assistant, assistant)]
  }

  /** All messages appended to a session since it was last cleared. */
  function Transcript(h: seq<Call>, session: string): seq<Message> {
    if h == [] then []
    else
      var before := Transcript(h[..|h| - 1], session);
      match h[|h| - 1]
      case AppendTurn(s, user, assistant) => if s == session then before + Appended(user, assistant) else before
      case Clear(s) => if s == session then [] else before
  }

  lemma TurnAppended(h: seq<Call>, session: string, user: string, assistant: string, s: string)
    ensures Transcript(h + [AppendTurn(session, user, assistant)], s)
            == if s == session then Transcript(h, s) + Appended(user, assistant) else Transcript(h, s)
  {
    var longer := h + [AppendTurn(session, user, assistant)];
    assert longer[..|longer| - 1] == h;
  }

  /** What a call adds to the transcript of its session; the other sessions are as before. */
  lemma CallIsRecorded(h: seq<Call>, c: Call, s: string)
    ensures var before, after := Transcript(h, s), Transcript(h + [c], s);
      && (c.session != s ==> after == before)
      && (c.session == s ==>
            if c.Clear? then after == []
            else if Blank(c.user) then after == before
            else if Blank(c.assistant) then after == before + [Message(User, c.user)]
            else after == before + [Message(User, c.user), Message(Assistant, c.assistant)])
  {
    assert (h + [c])[..|h|] == h;
  }

  class SessionStore {
    const maxMessages: nat
    var sessions: map<string, seq<Message>>
    /** The calls so far. */
    ghost var calls: seq<Call>

    /** Each session shows the last `max_messages` of all that was appended to it since it was cleared. */
    ghost predicate Valid()
      reads this
    {
      && maxMessages > 0
      && (forall s :: s in sessions ==> sessions[s] == LastOf(Transcript(calls, s), maxMessages))
      && (forall s :: s !in sessions ==> Transcript(calls, s) == [])
    }

    constructor (maxMessages: nat)
      requires maxMessages > 0
      ensures Valid() && calls == [] && this.maxMessages == maxMessages
    {
      this.maxMessages := maxMessages;
      sessions, calls := map[], [];
    }

    /** Appending to a deque with a maximal length. */
    static method Push(history: seq<Message>, message: Message, limit: nat) returns (longer: seq<Message>)
      requires limit > 0 && |history| <= limit
      ensures longer == LastOf(history + [message], limit) && |longer| <= limit
    {
      longer := history + [message];
      if |longer| > limit {
        longer := longer[1..];
      }
    }

    /** The history handed to a pattern. */
    method Get(session: string) returns (history: seq<Message>)
      requires Valid()
      ensures history == LastOf(Transcript(calls, session), maxMessages)
    {
      history := if session in sessions then sessions[session] else [];
    }

    /** False stands for the ValueError of a blank message. */
    method AppendTurn(session: string, user: string, assistant: string) returns (ok: bool)
      requires Valid()
      modifies this
      ensures Valid() && calls == old(calls) + [Call.AppendTurn(session, user, assistant)]
      ensures ok == (!Blank(user) && !Blank(assistant))
    {
      hide Transcript, Blank;
      ghost var before, call := Transcript(calls, session), Call.AppendTurn(session, user, assistant);
      forall s ensures Transcript(calls + [call], s)
                       == if s == session then before + Appended(user, assistant) else Transcript(calls, s) {
        TurnAppended(calls, session, user, assistant, s);
      }
      calls := calls + [call];
      var history := Current(session);
      history, ok := Extended(before, history, user, assistant);
      sessions := sessions[session := history];
    }

    method Current(session: string) returns (history: seq<Message>)
      ensures history == if session in sessions then sessions[session] else []
    {
      history := if session in sessions then sessions[session] else [];
    }

    /** The appends of one turn to one deque. */
    method Extended(ghost all: seq<Message>, held: seq<Message>, user: string, assistant: string)
      returns (history: seq<Message>, ok: bool)
      requires maxMessages > 0 && held == LastOf(all, maxMessages)
      ensures history == LastOf(all + Appended(user, assistant), maxMessages)
      ensures ok == (!Blank(user) && !Blank(assistant))
    {
      hide Blank;
      history, ok := held, !Blank(user);
      if ok {
        LastOfAppend(all, Message(User, user), maxMessages);
        history := Push(history, Message(User, user), maxMessages);
        ok := !Blank(assistant);
        if ok {
          LastOfAppend(all + [Message(User, user)], Message(Assistant, assistant), maxMessages);
          history := Push(history, Message(Assistant, assistant), maxMessages);
          assert (all + [Message(User, user)]) + [Message(Assistant, assistant)] == all + Appended(user, assistant);
        }
      } else {
        assert all + [] == all;
      }
    }

    method Clear(session: string)
      requires Valid()
      modifies this
      ensures Valid() && calls == old(calls) + [Call.Clear(session)]
    {
      calls := calls + [Call.Clear(session)];
      assert calls[..|calls| - 1] == old(calls);
      sessions := sessions - {session};
    }
  }

  /** User and assistant messages alternate and none is unanswered. */
  predicate Paired(messages: seq<Message>) {
    |messages| % 2 == 0
    && forall i :: 0 <= i < |messages| ==> messages[i].role == if i % 2 == 0 then User else Assistant
  }

  /** A turn that left its user message behind and raised. */
  predicate Unanswered(c: Call, session: string) {
    c.AppendTurn? && c.session == session && !Blank(c.user) && Blank(c.assistant)
  }

  /** The calls since a session was last cleared. */
  function SinceClear(h: seq<Call>, session: string): seq<Call> {
    if h == [] || h[|h| - 1] == Call.Clear(session) then []
    else SinceClear(h[..|h| - 1], session) + [h[|h| - 1]]
  }

  /** A transcript is strictly paired exactly when no turn since the last clear had a blank answer. */
  lemma {:induction false} PairedExactly(h: seq<Call>, session: string)
    ensures Paired(Transcript(h, session)) <==> forall c :: c in SinceClear(h, session) ==> !Unanswered(c, session)
  {
    if h != [] && h[|h| - 1] != Call.Clear(session) {
      var front, c := h[..|h| - 1], h[|h| - 1];
      PairedExactly(front, session);
      SameEnd(Transcript(front, session), c, session);
      assert SinceClear(h, session) == SinceClear(front, session) + [c];
    }
  }

  lemma SameEnd(before: seq<Message>, c: Call, session: string)
    requires c != Call.Clear(session)
    ensures var after := if c.AppendTurn? && c.session == session then before + Appended(c.user, c.assistant)
                         else before;
      Paired(after) <==> Paired(before) && !Unanswered(c, session)
  {
    hide Blank;
    if c.AppendTurn? && c.session == session {
      var more := Appended(c.user, c.assistant);
      var after := before + more;
      assert forall i :: 0 <= i < |before| ==> after[i] == before[i];
      assert more != [] ==> after[|before|] == more[0];
      assert |more| == 2 ==> after[|before| + 1] == more[1];
      if more == [] {
        assert after == before;
      }
    }
  }
}
