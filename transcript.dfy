/**
 * The chat transcript of the interview: an ordered list of turns, each with
 * a role and a text, sent in full to the chat backend on every exchange.
 */
module Transcript {

  datatype Role = System | User | Assistant

  /** One chat message `{ role, content }`. */
  datatype Turn = Turn(role: Role, content: string)

  /**
   * The shape every committed transcript keeps: the system turn first, then
   * user and assistant turns strictly alternating, ending on an assistant turn.
   */
  predicate Conversation(ms: seq<Turn>)
  {
    |ms| % 2 == 1 && ms[0].role == System &&
    forall i :: 1 <= i < |ms| ==> ms[i].role == (if i % 2 == 1 then User else Assistant)
  }

  /** The transcript the component starts with: the interviewer persona alone. */
  function Initial(systemPrompt: string): (r: seq<Turn>)
    ensures |r| == 1 && r[0].role == System && r[0].content == systemPrompt
    ensures Conversation(r)
  {
    [Turn(System, systemPrompt)]
  }

  /** The transcript after one exchanged question and answer. */
  function Exchange(ms: seq<Turn>, question: string, answer: string): (r: seq<Turn>)
    ensures |r| == |ms| + 2 && r[..|ms|] == ms
    ensures r[|ms|] == Turn(User, question) && r[|ms| + 1] == Turn(Assistant, answer)
  {
    ms + [Turn(User, question), Turn(Assistant, answer)]
  }

  /** Appending a question and its answer keeps the conversation shape and the system turn. */
  lemma ExchangeKeepsConversation(ms: seq<Turn>, question: string, answer: string)
    requires Conversation(ms)
    ensures Conversation(Exchange(ms, question, answer))
    ensures Exchange(ms, question, answer)[0] == ms[0]
  {
  }
}
