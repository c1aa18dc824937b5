/**
 * One `askOllama` round as a value: the turns it appends to the conversation
 * history, the effects of dispatching the reply's tool calls, and the
 * invariant the history keeps across rounds.
 */
module Conversation {
  import opened Protocol
  import opened World
  import opened Dispatch
  import opened Movement

  /** The turns a round appends: the user turn first, then the reply message
      unless the inference request failed. */
  function RoundTurns(command: Stimulus, reply: Reply): seq<Turn> {
    match reply
    case Failed => [User(command)]
    case Replied(m) => [User(command), Assistant(m)]
  }

  /** The effects of a round: one per tool call of the reply, in the order
      returned; none when the request failed. */
  function RoundEffects(reply: Reply, players: Players): seq<Effect> {
    match reply
    case Failed => []
    case Replied(m) => RouteAll(ToolCallsOf(m), players)
  }

  /** The moves a sequence of effects requests, in order. */
  function MovesRequested(effects: seq<Effect>): seq<Move>
    decreases |effects|
  {
    if effects == [] then []
    else
      var last := effects[|effects| - 1];
      MovesRequested(effects[..|effects| - 1]) + (if last.AwaitMove? then [Start(last.x, last.y, last.z)] else [])
  }

  lemma MovesRequestedAppend(effects: seq<Effect>, e: Effect)
    ensures MovesRequested(effects + [e]) == MovesRequested(effects) + MovesRequested([e])
  {
    assert (effects + [e])[..|effects|] == effects;
    assert [e][..0] == [];
  }

  /** The number of user turns in a history. */
  function Requests(h: seq<Turn>): nat
    decreases |h|
  {
    if h == [] then 0 else Requests(h[..|h| - 1]) + (if h[|h| - 1].User? then 1 else 0)
  }

  /** The number of reply turns in a history. */
  function Answers(h: seq<Turn>): nat
    decreases |h|
  {
    if h == [] then 0 else Answers(h[..|h| - 1]) + (if h[|h| - 1].Assistant? then 1 else 0)
  }

  /** The shape every reachable history has: the system prompt first and
      nowhere else, and, in every prefix, no more replies than user turns
      (a round pushes its user turn before it can push a reply). */
  ghost predicate ValidHistory(h: seq<Turn>) {
    && |h| >= 1
    && h[0] == SystemPrompt
    && (forall i :: 0 < i < |h| ==> !h[i].SystemPrompt?)
    && (forall k :: 0 <= k <= |h| ==> Answers(h[..k]) <= Requests(h[..k]))
  }

  lemma {:induction false} CountsAppend(a: seq<Turn>, b: seq<Turn>)
    ensures Requests(a + b) == Requests(a) + Requests(b)
    ensures Answers(a + b) == Answers(a) + Answers(b)
    decreases |b|
  {
    if b == [] {
      assert a + b == a;
    } else {
      var b' := b[..|b| - 1];
      assert (a + b)[..|a + b| - 1] == a + b';
      assert (a + b)[|a + b| - 1] == b[|b| - 1];
      CountsAppend(a, b');
    }
  }

  /** The initial history, the system prompt alone, is valid. */
  lemma InitialHistoryValid()
    ensures ValidHistory([SystemPrompt])
  {
    assert [SystemPrompt][..1] == [SystemPrompt];
  }

  /** A round keeps the history valid. */
  lemma {:induction false} RoundKeepsHistoryValid(h: seq<Turn>, command: Stimulus, reply: Reply)
    requires ValidHistory(h)
    ensures ValidHistory(h + RoundTurns(command, reply))
  {
    var t := RoundTurns(command, reply);
    var h' := h + t;
    assert Answers(h[..|h|]) <= Requests(h[..|h|]);
    assert h[..|h|] == h;
    forall k | 0 <= k <= |h'|
      ensures Answers(h'[..k]) <= Requests(h'[..k])
    {
      if k <= |h| {
        assert h'[..k] == h[..k];
      } else {
        var u := t[..k - |h|];
        assert h'[..k] == h + u;
        CountsAppend(h, u);
        assert u[..0] == [];
        assert u[0].User?;
        assert Requests(u[..1]) == 1 && Answers(u[..1]) == 0;
        if |u| == 2 {
          assert u[..1] == t[..1];
          assert Answers(u) <= 1 && Requests(u) == 1;
        } else {
          assert u == u[..1];
        }
      }
    }
  }

  /** A round only appends: the earlier history is left as it was, the user
      turn comes next, and the reply message follows it exactly when the
      request succeeded. */
  lemma RoundAppendsInOrder(h: seq<Turn>, command: Stimulus, reply: Reply)
    ensures var h' := h + RoundTurns(command, reply);
            && h'[..|h|] == h
            && h'[|h|] == User(command)
            && (reply.Failed? <==> |h'| == |h| + 1)
            && (reply.Replied? ==> |h'| == |h| + 2 && h'[|h| + 1] == Assistant(reply.message))
  {
  }

  /** A failed request leaves only the user turn behind and dispatches nothing. */
  lemma FailedRoundDispatchesNothing(command: Stimulus, players: Players)
    ensures RoundTurns(command, Failed) == [User(command)]
    ensures RoundEffects(Failed, players) == []
    ensures MovesRequested(RoundEffects(Failed, players)) == []
  {
  }

  /** A successful round hands each returned tool call to the dispatcher once,
      in the order returned; a reply without tool calls dispatches nothing. */
  lemma RoundDispatchesEachCallOnce(m: Message, players: Players)
    ensures var effects := RoundEffects(Replied(m), players);
            && |effects| == |ToolCallsOf(m)|
            && (forall i :: 0 <= i < |effects| ==> effects[i] == Route(ToolCallsOf(m)[i], players))
            && (m.toolCalls.None? ==> effects == [])
  {
  }
}
