/** The two-node tool-calling agent (`src/neo_rag_agent.py`): after every
    model answer, `should_call_tool` sends the conversation to the tool
    node when the answer asks for tools and ends it otherwise; the tool
    node always hands back to the model. The model's answers and the tool
    node's replies are inputs. */
module NeoRagAgent {
  import opened Common

  /** A chat message: `toolCalls` is `None` when the message has no
      `tool_calls` attribute at all. */
  datatype Message = Message(content: string, toolCalls: Option<seq<string>>)

  datatype Node = Start | LovdataAgent | Tools | End

  predicate HasToolCalls(m: Message)
  {
    m.toolCalls.Some? && |m.toolCalls.value| > 0
  }

  /** `should_call_tool`: the route after the model has answered. The last
      message is read unguarded, so an empty conversation raises. */
  function ShouldCallTool(messages: seq<Message>): (r: Result<Node>)
    ensures r.Err? <==> |messages| == 0
    ensures |messages| > 0 ==> (r == Ok(Tools) <==> HasToolCalls(messages[|messages| - 1]))
    ensures |messages| > 0 ==> (r == Ok(End) <==> !HasToolCalls(messages[|messages| - 1]))
  {
    if |messages| == 0 then Err("IndexError")
    else
      var last := messages[|messages| - 1];
      if last.toolCalls.Some? && |last.toolCalls.value| > 0 then Ok(Tools) else Ok(End)
  }

  /** The edges of `create_graph`, taken on the conversation as it stands
      after `node` has run. */
  function Next(node: Node, messages: seq<Message>): (r: Result<Node>)
    requires node != End
    ensures node == Start ==> r == Ok(LovdataAgent)
    ensures node == Tools ==> r == Ok(LovdataAgent)
    ensures r == Ok(End) ==> node == LovdataAgent
    ensures r.Ok? ==> r.value != Start
  {
    match node
    case Start => Ok(LovdataAgent)
    case LovdataAgent => ShouldCallTool(messages)
    case Tools => Ok(LovdataAgent)
  }

  /** `lovdata_agent`'s update: exactly the model's one answer. */
  function AgentUpdate(answer: Message): (r: seq<Message>)
    ensures |r| == 1 && r[0] == answer
  {
    [answer]
  }

  /** A finished conversation and the nodes visited, from the first model
      call to END. */
  datatype Outcome = Outcome(messages: seq<Message>, trace: seq<Node>)

  /** Runs the loop from the model node: `answers` are the model's
      successive answers and `replies` the tool node's successive replies.
      `None` when the answers run out before one of them asks for no tool. */
  function Run(messages: seq<Message>, answers: seq<Message>, replies: seq<seq<Message>>): Option<Outcome>
    decreases |answers|
  {
    if |answers| == 0 then None
    else
      var afterAgent := messages + AgentUpdate(answers[0]);
      match Next(LovdataAgent, afterAgent)
      case Err(_) => None
      case Ok(next) =>
        if next == End then Some(Outcome(afterAgent, [LovdataAgent, End]))
        else
          var afterTools := afterAgent + (if |replies| > 0 then replies[0] else []);
          match Run(afterTools, answers[1..], if |replies| > 0 then replies[1..] else [])
          case None => None
          case Some(o) => Some(Outcome(o.messages, [LovdataAgent, Tools] + o.trace))
  }

  /** The nodes of `k` rounds in which the model asked for tools. */
  function ToolRounds(k: nat): (r: seq<Node>)
    ensures |r| == 2 * k
  {
    if k == 0 then [] else [LovdataAgent, Tools] + ToolRounds(k - 1)
  }

  /** In `k` tool rounds the model and the tool node each run `k` times,
      and END is never reached. */
  lemma {:induction false} ToolRoundsCounts(k: nat)
    ensures multiset(ToolRounds(k))[LovdataAgent] == k && multiset(ToolRounds(k))[Tools] == k
    ensures End !in ToolRounds(k)
  {
    if k > 0 {
      ToolRoundsCounts(k - 1);
      var t := ToolRounds(k - 1);
      assert ToolRounds(k) == [LovdataAgent, Tools] + t;
      var pair := multiset([LovdataAgent, Tools]);
      assert pair[LovdataAgent] == 1 && pair[Tools] == 1;
      assert multiset(ToolRounds(k)) == pair + multiset(t);
    }
  }

  /** The rounds alternate, the model first. */
  lemma {:induction false} ToolRoundsAlternate(k: nat)
    ensures forall j :: 0 <= j < k ==> ToolRounds(k)[2 * j] == LovdataAgent && ToolRounds(k)[2 * j + 1] == Tools
  {
    if k > 0 {
      ToolRoundsAlternate(k - 1);
      var t := ToolRounds(k - 1);
      var r := ToolRounds(k);
      assert r == [LovdataAgent, Tools] + t;
      forall j | 1 <= j < k ensures r[2 * j] == LovdataAgent && r[2 * j + 1] == Tools {
        assert r[2 * j] == t[2 * (j - 1)];
        assert r[2 * j + 1] == t[2 * (j - 1) + 1];
      }
    }
  }

  /** The conversation ends right after the first answer that asks for no
      tool: with `k` tool-calling answers before it, the model runs `k + 1`
      times, the tools `k` times, and END follows the model node. */
  lemma {:induction false} EndsAtFirstFinalAnswer(messages: seq<Message>, answers: seq<Message>,
                                                  replies: seq<seq<Message>>, k: nat)
    requires k < |answers| && !HasToolCalls(answers[k])
    requires forall i :: 0 <= i < k ==> HasToolCalls(answers[i])
    ensures Run(messages, answers, replies).Some?
    ensures var o := Run(messages, answers, replies).value;
            o.trace == ToolRounds(k) + [LovdataAgent, End]
            && |o.messages| > 0 && o.messages[|o.messages| - 1] == answers[k]
    decreases k
  {
    var afterAgent := messages + AgentUpdate(answers[0]);
    if k == 0 {
      assert Next(LovdataAgent, afterAgent) == Ok(End);
    } else {
      assert Next(LovdataAgent, afterAgent) == Ok(Tools);
      var afterTools := afterAgent + (if |replies| > 0 then replies[0] else []);
      var rest := if |replies| > 0 then replies[1..] else [];
      var later := answers[1..];
      assert !HasToolCalls(later[k - 1]);
      assert forall i :: 0 <= i < k - 1 ==> HasToolCalls(later[i]) by {
        forall i | 0 <= i < k - 1 ensures HasToolCalls(later[i]) {
          assert later[i] == answers[i + 1];
        }
      }
      EndsAtFirstFinalAnswer(afterTools, later, rest, k - 1);
      var o := Run(afterTools, later, rest).value;
      assert Run(messages, answers, replies) == Some(Outcome(o.messages, [LovdataAgent, Tools] + o.trace));
      var t := ToolRounds(k - 1);
      assert ToolRounds(k) == [LovdataAgent, Tools] + t;
      assert ([LovdataAgent, Tools] + t) + [LovdataAgent, End] == [LovdataAgent, Tools] + (t + [LovdataAgent, End]);
    }
  }

  /** Answers that all ask for tools never reach END. */
  lemma {:induction false} NoFinalAnswer(messages: seq<Message>, answers: seq<Message>, replies: seq<seq<Message>>)
    requires forall i :: 0 <= i < |answers| ==> HasToolCalls(answers[i])
    ensures Run(messages, answers, replies).None?
    decreases |answers|
  {
    if |answers| > 0 {
      var afterAgent := messages + AgentUpdate(answers[0]);
      assert Next(LovdataAgent, afterAgent) == Ok(Tools);
      var afterTools := afterAgent + (if |replies| > 0 then replies[0] else []);
      NoFinalAnswer(afterTools, answers[1..], if |replies| > 0 then replies[1..] else []);
    }
  }
}
