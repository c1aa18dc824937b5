/**
 * The agent loop's mutable state and its event handlers: the module-level
 * conversation history, the pathfinder listeners the moves have registered,
 * the `chat` handler that turns other players' messages into rounds, and
 * `askOllama`, which appends to the history and dispatches the reply's tool
 * calls. The inference reply and the player table are parameters; the
 * effects returned are what the caller carries out (send a chat line, or run
 * the follow-up round a `FollowUp` effect or a released `moved_to` asks for).
 */
module Agent {
  import opened Wrappers
  import opened Protocol
  import opened World
  import opened Dispatch
  import opened Movement
  import opened Conversation

  /** The `chat` handler's filter: the bot's own messages start no round. */
  function Intake(botName: string, username: string, message: string): (s: Option<Stimulus>)
    ensures s.None? <==> username == botName
    ensures s.Some? ==> s.value.Chat? && s.value.username == username && s.value.message == message
  {
    if username == botName then None else Some(Chat(username, message))
  }

  class Session {
    /** The bot's own username on the server. */
    const botName: string
    /** The conversation sent with every inference request. */
    var history: seq<Turn>
    /** Every move requested so far, with its listeners' state. */
    var moves: seq<Move>

    ghost predicate Valid()
      reads this
    {
      ValidHistory(history)
    }

    constructor (botName: string)
      ensures Valid()
      ensures this.botName == botName && history == [SystemPrompt] && moves == []
    {
      this.botName := botName;
      history := [SystemPrompt];
      moves := [];
      InitialHistoryValid();
    }

    /** Sets a pathfinder goal and registers the move's one-shot listeners. */
    method MoveToLocation(x: Value, y: Value, z: Value)
      modifies this
      ensures moves == old(moves) + [Start(x, y, z)]
      ensures history == old(history)
    {
      moves := moves + [Start(x, y, z)];
    }

    /** Handles one tool call: the effect the routing decision names, and for
        a move, the move registered at once. */
    method HandleBotAction(call: ToolCall, players: Players) returns (e: Effect)
      modifies this
      ensures e == Route(call, players)
      ensures moves == old(moves) + MovesRequested([e])
      ensures history == old(history)
    {
      e := Route(call, players);
      assert [e][..0] == [];
      if e.AwaitMove? {
        MoveToLocation(e.x, e.y, e.z);
      }
    }

    /** The loop over a reply's tool calls: each one handled once, in order. */
    method DispatchCalls(calls: seq<ToolCall>, players: Players) returns (effects: seq<Effect>)
      modifies this
      ensures effects == RouteAll(calls, players)
      ensures moves == old(moves) + MovesRequested(effects)
      ensures history == old(history)
    {
      effects := [];
      var i := 0;
      while i < |calls|
        invariant 0 <= i <= |calls|
        invariant effects == RouteAll(calls[..i], players)
        invariant moves == old(moves) + MovesRequested(effects)
        invariant history == old(history)
      {
        var e := HandleBotAction(calls[i], players);
        RouteAllExtend(calls, i, players);
        MovesRequestedAppend(effects, e);
        effects := effects + [e];
        i := i + 1;
      }
      assert calls[..|calls|] == calls;
    }

    /** One inference round: push the user turn, then, if the request
        succeeded, the reply message, and dispatch its tool calls in order.
        A failed request is caught after the user turn is pushed. */
    method AskOllama(command: Stimulus, reply: Reply, players: Players) returns (effects: seq<Effect>)
      requires Valid()
      modifies this
      ensures Valid()
      ensures history == old(history) + RoundTurns(command, reply)
      ensures effects == RoundEffects(reply, players)
      ensures moves == old(moves) + MovesRequested(effects)
    {
      RoundKeepsHistoryValid(history, command, reply);
      history := history + [User(command)];
      if reply.Failed? {
        effects := [];
        assert history == old(history) + RoundTurns(command, reply);
        return;
      }
      history := history + [Assistant(reply.message)];
      assert history == old(history) + RoundTurns(command, reply);
      effects := DispatchCalls(ToolCallsOf(reply.message), players);
    }

    /** A chat message from another player starts a round reporting it; the
        bot's own messages change nothing. */
    method OnChat(username: string, message: string, reply: Reply, players: Players) returns (effects: seq<Effect>)
      requires Valid()
      modifies this
      ensures Valid()
      ensures username == botName ==> history == old(history) && moves == old(moves) && effects == []
      ensures username != botName ==>
                && history == old(history) + [User(Chat(username, message))] + (if reply.Replied? then [Assistant(reply.message)] else [])
                && effects == RoundEffects(reply, players)
                && moves == old(moves) + MovesRequested(effects)
    {
      match Intake(botName, username, message)
      case None =>
        effects := [];
      case Some(stimulus) =>
        effects := AskOllama(stimulus, reply, players);
    }

    /** Delivers a pathfinder event to every registered listener; the result is
        the `moved_to` observations of the moves it resolved, each to be
        reported in a round of its own. The history is not touched. */
    method OnPathfinderEvent(e: MoveEvent) returns (arrivals: seq<Stimulus>)
      modifies this
      ensures moves == Notify(old(moves), e)
      ensures arrivals == Arrivals(old(moves), e)
      ensures history == old(history)
    {
      var listeners := moves;
      var heard := [];
      arrivals := [];
      var i := 0;
      while i < |listeners|
        invariant 0 <= i <= |listeners|
        invariant heard == Notify(listeners[..i], e)
        invariant arrivals == Arrivals(listeners[..i], e)
        invariant history == old(history)
      {
        NotifyExtend(listeners, i, e);
        if Arrives(listeners[i], e) {
          arrivals := arrivals + [ArrivalOf(listeners[i])];
        }
        heard := heard + [Hear(listeners[i], e)];
        i := i + 1;
      }
      assert listeners[..|listeners|] == listeners;
      moves := heard;
    }
  }

  /** The round trip of a `move` call: the round registers a move to the
      call's own x, y, z, and the first `goal_reached` releases a `moved_to`
      observation with exactly those coordinates; a first `noPath` update
      releases nothing. */
  lemma MoveCallRoundTrip(call: ToolCall, players: Players)
    requires call.name == "move"
    ensures MovesRequested([Route(call, players)]) == [Start(Arg(call, "x"), Arg(call, "y"), Arg(call, "z"))]
    ensures var ms := MovesRequested([Route(call, players)]);
            && Arrivals(ms, GoalReached) == [MovedTo(Arg(call, "x"), Arg(call, "y"), Arg(call, "z"))]
            && Arrivals(ms, NoPathUpdate) == []
            && Notify(ms, NoPathUpdate)[0].outcome == Rejected
  {
    var e := Route(call, players);
    assert [e][..0] == [];
    var ms := MovesRequested([e]);
    assert ms[..0] == [];
  }

  /** "Come here": a player's chat leads the model to look the player up,
      the lookup's result is fed back as a user turn, the model then moves
      there, and arrival is reported with the player's coordinates. The two
      rounds are stated separately: the second reply, a `move` to the looked-up
      position, is supplied here by hand, since what the model answers to the
      `player_location` turn is outside the bot. */
  lemma ComeHereScenario(h: seq<Turn>, players: Players, name: string, at: Position, text: string)
    requires name in players && players[name].entity == Some(Entity(at))
    ensures var lookup := ToolCall("get_player_location", map["username" := Str(name)]);
            RoundEffects(Replied(Message("", Some([lookup]))), players)
              == [FollowUp(PlayerLocation(Str(name), at))]
    ensures var move := ToolCall("move", map["x" := Num(at.x), "y" := Num(at.y), "z" := Num(at.z)]);
            var ms := MovesRequested(RoundEffects(Replied(Message("", Some([move]))), players));
            Arrivals(ms, GoalReached) == [MovedTo(Num(at.x), Num(at.y), Num(at.z))]
  {
    var lookup := ToolCall("get_player_location", map["username" := Str(name)]);
    assert [lookup][..0] == [];
    var move := ToolCall("move", map["x" := Num(at.x), "y" := Num(at.y), "z" := Num(at.z)]);
    assert [move][..0] == [];
    MoveCallRoundTrip(move, players);
  }
}
