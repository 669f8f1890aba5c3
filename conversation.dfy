/** The chat session kept by `main`: the transcript `messages`, the two
    model settings and the last debug record, together with one chat turn
    and the clear button. */
module Conversation {
  import opened Wrappers
  import opened Gateway

  const UserRole: string := "user"
  const AssistantRole: string := "assistant"

  /** The role an entry has in the history sent along with a prompt:
      "user" stays "user", every other role becomes "assistant". */
  function HistoryRole(role: string): string {
    if role == UserRole then UserRole else AssistantRole
  }

  /** The history built from `entries`, entry by entry. */
  function History(entries: seq<Message>): (h: seq<Message>)
    ensures |h| == |entries|
  {
    seq(|entries|, i requires 0 <= i < |entries| => Message(HistoryRole(entries[i].role), entries[i].content))
  }

  predicate KnownRole(m: Message) {
    m.role == UserRole || m.role == AssistantRole
  }

  /** Builds the history with a loop, as the turn does. */
  method BuildHistory(entries: seq<Message>) returns (history: seq<Message>)
    ensures history == History(entries)
  {
    history := [];
    for i := 0 to |entries|
      invariant |history| == i
      invariant forall k | 0 <= k < i :: history[k] == Message(HistoryRole(entries[k].role), entries[k].content)
    {
      var msg := entries[i];
      if msg.role == UserRole {
        history := history + [Message(UserRole, msg.content)];
      } else {
        history := history + [Message(AssistantRole, msg.content)];
      }
    }
  }

  /** The history keeps length, order and contents; its roles are only
      "user" and "assistant", and a transcript whose roles already are
      comes back unchanged. */
  lemma HistoryFaithful(entries: seq<Message>)
    ensures |History(entries)| == |entries|
    ensures forall i | 0 <= i < |entries| :: History(entries)[i].content == entries[i].content
    ensures forall i | 0 <= i < |entries| :: KnownRole(History(entries)[i])
    ensures forall i | 0 <= i < |entries| :: (History(entries)[i].role == UserRole <==> entries[i].role == UserRole)
    ensures (forall i | 0 <= i < |entries| :: KnownRole(entries[i])) ==> History(entries) == entries
  {
  }

  class Session {
    /** `st.session_state.messages` */
    var messages: seq<Message>
    /** `st.session_state["max_tokens"]` and `["temperature"]` */
    var settings: Settings
    /** `st.session_state["last_response_info"]` */
    var lastResponseInfo: Option<ResponseInfo>

    /** Every entry was appended by a turn, so it is a user or an assistant entry. */
    ghost predicate Valid()
      reads this
    {
      forall i | 0 <= i < |messages| :: KnownRole(messages[i])
    }

    /** A fresh session: the transcript is initialised empty and no setting
        has been stored yet. */
    constructor ()
      ensures Valid()
      ensures messages == [] && settings == Settings(None, None) && lastResponseInfo == None
    {
      messages := [];
      settings := Settings(None, None);
      lastResponseInfo := None;
    }

    /** The sidebar stores the two slider values. */
    method ApplySettings(maxTokens: int, temperature: Temperature)
      requires Valid()
      modifies this
      ensures Valid()
      ensures settings == Settings(Some(maxTokens), Some(temperature))
      ensures messages == old(messages) && lastResponseInfo == old(lastResponseInfo)
    {
      settings := Settings(Some(maxTokens), Some(temperature));
    }

    /** The clear button empties the transcript and nothing else. */
    method Clear()
      requires Valid()
      modifies this
      ensures Valid()
      ensures messages == []
      ensures settings == old(settings) && lastResponseInfo == old(lastResponseInfo)
    {
      messages := [];
    }

    /** One submitted prompt. An empty prompt is no submission. Otherwise the
        user entry is appended, the history is built from every earlier entry,
        the reply is obtained, and the assistant entry is appended; if
        `send_message` raises, the turn stops after the user entry. */
    method Submit(prompt: string, post: Payload -> Exchange) returns (history: seq<Message>, sent: Sent)
      requires Valid()
      modifies this
      ensures Valid()
      ensures settings == old(settings)
      ensures prompt == [] ==> messages == old(messages) && lastResponseInfo == old(lastResponseInfo)
      ensures prompt != [] ==> history == old(messages)
      ensures prompt != [] ==> sent == SendMessage(prompt, history, old(settings), post)
      ensures prompt != [] && sent.outcome.Displayed? ==>
                messages == old(messages) + [Message(UserRole, prompt), Message(AssistantRole, sent.outcome.text)]
      ensures prompt != [] && sent.outcome.Raised? ==>
                messages == old(messages) + [Message(UserRole, prompt)]
      ensures prompt != [] ==>
                lastResponseInfo == (if sent.info.Some? then sent.info else old(lastResponseInfo))
    {
      history := [];
      sent := Sent(Displayed([]), None);
      if prompt == [] {
        return;
      }
      var before := messages;
      messages := before + [Message(UserRole, prompt)];
      // the loop runs over `messages[:-1]`, the transcript before the append
      history := BuildHistory(before);
      sent := SendMessage(prompt, history, settings, post);
      Record(sent);
      if sent.outcome.Displayed? {
        assert [Message(UserRole, prompt)] + [Message(AssistantRole, sent.outcome.text)]
            == [Message(UserRole, prompt), Message(AssistantRole, sent.outcome.text)];
      }
    }

    /** What the turn does with the answer of `send_message`: the debug
        record it wrote is kept, and a reply is appended as the assistant
        entry; an exception appends nothing. */
    method Record(sent: Sent)
      requires Valid()
      modifies this
      ensures Valid()
      ensures settings == old(settings)
      ensures sent.outcome.Displayed? ==> messages == old(messages) + [Message(AssistantRole, sent.outcome.text)]
      ensures sent.outcome.Raised? ==> messages == old(messages)
      ensures lastResponseInfo == (if sent.info.Some? then sent.info else old(lastResponseInfo))
    {
      if sent.info.Some? {
        lastResponseInfo := sent.info;
      }
      if sent.outcome.Displayed? {
        messages := messages + [Message(AssistantRole, sent.outcome.text)];
      }
    }
  }
}
