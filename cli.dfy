/**
 * The command-line chat: a mode picks the starting agent, then each line the
 * user types is appended to a local history, the whole history is sent as
 * the prompt, and the reply is appended. In symptom-triage mode a reply that
 * recommends a doctor hands the rest of the session to the doctor
 * recommender. The agent's reply to each prompt is an input.
 */
module Cli {
  import opened Wrappers
  import opened Text
  import opened Llm

  datatype Agent = TriageAgent | DocExplainerAgent | DoctorRecommenderAgent
  datatype Message = Message(role: string, content: string)
  /** One line of user input together with the agent's answer to the prompt it produces. */
  datatype Exchange = Exchange(input: string, generation: Generation)
  datatype TurnResult = Exited | Prompted(agent: Agent, prompt: string)

  const FallbackReply: string := "I'm having trouble thinking right now."
  const ReferralPhrase: string := "recommend a doctor"

  /** The mode menu: '1' triage, '2' document explainer, '3' doctor finder, anything else invalid. */
  function AgentForMode(mode: string): (agent: Option<Agent>)
    ensures agent == Some(TriageAgent) <==> mode == "1"
    ensures agent == Some(DocExplainerAgent) <==> mode == "2"
    ensures agent == Some(DoctorRecommenderAgent) <==> mode == "3"
    ensures agent.None? <==> mode != "1" && mode != "2" && mode != "3"
  {
    if mode == "1" then Some(TriageAgent)
    else if mode == "2" then Some(DocExplainerAgent)
    else if mode == "3" then Some(DoctorRecommenderAgent)
    else None
  }

  function Line(m: Message): string
  {
    m.role + ": " + m.content
  }

  function Lines(history: seq<Message>): (lines: seq<string>)
    ensures |lines| == |history|
    ensures forall i :: 0 <= i < |history| ==> lines[i] == Line(history[i])
  {
    seq(|history|, i requires 0 <= i < |history| => Line(history[i]))
  }

  /** The prompt: one `role: content` line per history entry, joined by newlines. */
  function Prompt(history: seq<Message>): string
  {
    Join(Lines(history), "\n")
  }

  /** Appending an entry appends its line as the prompt's last line. */
  lemma PromptAppend(history: seq<Message>, m: Message)
    ensures Prompt(history + [m]) == (if history == [] then "" else Prompt(history) + "\n") + Line(m)
  {
    var ls := Lines(history + [m]);
    assert ls[..|ls| - 1] == Lines(history);
    if history == [] {
      assert ls == [Line(m)];
    }
  }

  predicate IsExit(input: string)
  {
    Lower(input) == "exit"
  }

  function ReplyText(text: Option<string>): (reply: string)
    ensures reply != ""
    ensures Truthy(text) ==> reply == text.value
    ensures !Truthy(text) ==> reply == FallbackReply
  {
    OrElse(text, FallbackReply)
  }

  predicate SuggestsDoctor(reply: string)
  {
    Contains(Lower(reply), ReferralPhrase)
  }

  function CountGenerated(exchanges: seq<Exchange>): nat
  {
    if |exchanges| == 0 then 0
    else CountGenerated(exchanges[..|exchanges| - 1]) +
         (if exchanges[|exchanges| - 1].generation.Generated? then 1 else 0)
  }

  /** The entries one answered or failed turn appends: the user's line, then the reply if there is one. */
  function TurnEntries(e: Exchange): seq<Message>
  {
    [Message("user", e.input)] +
    (if e.generation.Generated? then [Message("assistant", ReplyText(e.generation.text))] else [])
  }

  /** The entries a run of non-exit turns appends to the history, turn by turn. */
  function Appended(exchanges: seq<Exchange>): seq<Message>
  {
    if |exchanges| == 0 then []
    else Appended(exchanges[..|exchanges| - 1]) + TurnEntries(exchanges[|exchanges| - 1])
  }

  /** Each turn appends its user entry and one reply per answered turn. */
  lemma {:induction false} AppendedLength(exchanges: seq<Exchange>)
    ensures |Appended(exchanges)| == |exchanges| + CountGenerated(exchanges)
  {
    if |exchanges| > 0 {
      AppendedLength(exchanges[..|exchanges| - 1]);
    }
  }

  /** The turn's reply hands a triage session to the doctor recommender. */
  predicate Refers(mode: string, e: Exchange)
  {
    mode == "1" && e.generation.Generated? && SuggestsDoctor(ReplyText(e.generation.text))
  }

  /** The active agent after a run of non-exit turns started with `agent`. */
  function AgentAfter(mode: string, agent: Agent, exchanges: seq<Exchange>): Agent
  {
    if |exchanges| == 0 then agent
    else if Refers(mode, exchanges[|exchanges| - 1]) then DoctorRecommenderAgent
    else AgentAfter(mode, agent, exchanges[..|exchanges| - 1])
  }

  /**
   * Outside triage the agent never changes; in triage the session ends on the
   * doctor recommender exactly when it started there or some answered reply
   * recommended a doctor.
   */
  lemma {:induction false} AgentAfterReferral(mode: string, agent: Agent, exchanges: seq<Exchange>)
    ensures mode != "1" ==> AgentAfter(mode, agent, exchanges) == agent
    ensures mode == "1" ==>
      (AgentAfter(mode, agent, exchanges) == DoctorRecommenderAgent <==>
       agent == DoctorRecommenderAgent || exists k :: 0 <= k < |exchanges| && Refers(mode, exchanges[k]))
    ensures mode == "1" && AgentAfter(mode, agent, exchanges) != DoctorRecommenderAgent ==>
      AgentAfter(mode, agent, exchanges) == agent
  {
    if |exchanges| > 0 {
      var prefix := exchanges[..|exchanges| - 1];
      AgentAfterReferral(mode, agent, prefix);
      if mode == "1" && !Refers(mode, exchanges[|exchanges| - 1]) {
        if exists k :: 0 <= k < |exchanges| && Refers(mode, exchanges[k]) {
          var k :| 0 <= k < |exchanges| && Refers(mode, exchanges[k]);
          assert k < |prefix| && prefix[k] == exchanges[k];
        }
        forall k | 0 <= k < |prefix| && Refers(mode, prefix[k])
          ensures exists k' :: 0 <= k' < |exchanges| && Refers(mode, exchanges[k'])
        {
          assert exchanges[k] == prefix[k];
        }
      }
    }
  }

  /** `AgentAfterReferral` for the first `n` exchanges of a script. */
  lemma ReferralInPrefix(mode: string, agent: Agent, exchanges: seq<Exchange>, n: nat)
    requires n <= |exchanges|
    ensures mode != "1" ==> AgentAfter(mode, agent, exchanges[..n]) == agent
    ensures mode == "1" ==>
      (AgentAfter(mode, agent, exchanges[..n]) == DoctorRecommenderAgent <==>
       agent == DoctorRecommenderAgent || exists k :: 0 <= k < n && Refers(mode, exchanges[k]))
  {
    var prefix := exchanges[..n];
    AgentAfterReferral(mode, agent, prefix);
    forall k | 0 <= k < n
      ensures prefix[k] == exchanges[k]
    {
    }
  }

  class ChatSession {
    /** The mode chosen at start; it never changes. */
    const mode: string
    var activeAgent: Agent
    var history: seq<Message>

    /** The agent is the mode's own, or the doctor recommender reached from triage. */
    ghost predicate Valid()
      reads this
    {
      AgentForMode(mode).Some? &&
      (activeAgent == AgentForMode(mode).value || (mode == "1" && activeAgent == DoctorRecommenderAgent))
    }

    constructor (mode: string)
      requires AgentForMode(mode).Some?
      ensures Valid() && this.mode == mode
      ensures activeAgent == AgentForMode(mode).value && history == []
    {
      this.mode := mode;
      activeAgent := AgentForMode(mode).value;
      history := [];
    }

    /**
     * One pass of the chat loop. `exit` (in any case) ends the session with
     * nothing appended; otherwise the user entry is appended and the prompt
     * built from the whole history; a reply appends one assistant entry, a
     * failed generation appends nothing more.
     */
    method Turn(input: string, generation: Generation) returns (result: TurnResult)
      requires Valid()
      modifies this
      ensures Valid()
      ensures IsExit(input) ==>
        result == Exited && history == old(history) && activeAgent == old(activeAgent)
      ensures !IsExit(input) ==>
        result == Prompted(old(activeAgent), Prompt(old(history) + [Message("user", input)])) &&
        EndsWith(result.prompt, "user: " + input)
      ensures !IsExit(input) && generation.GenerationFailed? ==>
        history == old(history) + [Message("user", input)] && activeAgent == old(activeAgent)
      ensures !IsExit(input) && generation.Generated? ==>
        history == old(history) + [Message("user", input), Message("assistant", ReplyText(generation.text))] &&
        activeAgent == if mode == "1" && SuggestsDoctor(ReplyText(generation.text))
                       then DoctorRecommenderAgent else old(activeAgent)
      ensures old(activeAgent) == DoctorRecommenderAgent ==> activeAgent == DoctorRecommenderAgent
      ensures mode != "1" ==> activeAgent == old(activeAgent)
    {
      if IsExit(input) {
        return Exited;
      }
      var user := Message("user", input);
      history := history + [user];
      var prompt := Prompt(history);
      PromptAppend(old(history), user);
      assert Line(user) == "user: " + input;
      result := Prompted(activeAgent, prompt);
      match generation {
        case GenerationFailed =>
        case Generated(text) =>
          var responseText := ReplyText(text);
          history := history + [Message("assistant", responseText)];
          if mode == "1" && SuggestsDoctor(responseText) {
            activeAgent := DoctorRecommenderAgent;
          }
      }
    }

    /**
     * The chat loop over a script of exchanges: it handles them in order and
     * stops at the first `exit`. Earlier history is never rewritten, every
     * handled exchange adds its user entry and, when answered, one reply.
     */
    method Converse(exchanges: seq<Exchange>) returns (handled: nat)
      requires Valid()
      modifies this
      ensures Valid()
      ensures handled <= |exchanges|
      ensures forall k :: 0 <= k < handled ==> !IsExit(exchanges[k].input)
      ensures handled < |exchanges| ==> IsExit(exchanges[handled].input)
      ensures history == old(history) + Appended(exchanges[..handled])
      ensures |history| == |old(history)| + handled + CountGenerated(exchanges[..handled])
      ensures activeAgent == AgentAfter(mode, old(activeAgent), exchanges[..handled])
      ensures mode == "1" ==>
        (activeAgent == DoctorRecommenderAgent <==>
         old(activeAgent) == DoctorRecommenderAgent ||
         exists k :: 0 <= k < handled && Refers(mode, exchanges[k]))
      ensures mode != "1" ==> activeAgent == old(activeAgent)
    {
      handled := 0;
      while handled < |exchanges|
        invariant Valid()
        invariant handled <= |exchanges|
        invariant forall k :: 0 <= k < handled ==> !IsExit(exchanges[k].input)
        invariant history == old(history) + Appended(exchanges[..handled])
        invariant activeAgent == AgentAfter(mode, old(activeAgent), exchanges[..handled])
      {
        var e := exchanges[handled];
        if IsExit(e.input) {
          break;
        }
        var _ := Turn(e.input, e.generation);
        assert exchanges[..handled + 1][..handled] == exchanges[..handled];
        assert exchanges[..handled + 1][handled] == e;
        assert Appended(exchanges[..handled + 1]) == Appended(exchanges[..handled]) + TurnEntries(e);
        handled := handled + 1;
      }
      AppendedLength(exchanges[..handled]);
      ReferralInPrefix(mode, old(activeAgent), exchanges, handled);
    }
  }

  /** `startChat`: a recognised mode starts a session with an empty history, any other ends. */
  method StartChat(mode: string) returns (session: ChatSession?)
    ensures session == null <==> AgentForMode(mode).None?
    ensures session != null ==>
      fresh(session) && session.Valid() && session.mode == mode &&
      session.activeAgent == AgentForMode(mode).value && session.history == []
  {
    if AgentForMode(mode).None? {
      return null;
    }
    session := new ChatSession(mode);
  }
}
