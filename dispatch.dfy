/**
 * The tool-call dispatcher: the routing decision `handleBotAction` makes for
 * one call, as the effect it has on the world and on the conversation.
 */
module Dispatch {
  import opened Wrappers
  import opened Protocol
  import opened World
  import opened Tools

  /** What handling one tool call does. */
  datatype Effect =
    | SendChat(message: Value)                 // chat `message` on the server
    | AwaitMove(x: Value, y: Value, z: Value)  // set a pathfinder goal; report arrival later
    | FollowUp(stimulus: Stimulus)             // run another inference round at once
    | LogUnknown(name: string)                 // only log the unrecognised name

  /** True of the effects that start another inference round immediately. */
  predicate Infers(e: Effect) {
    e.FollowUp?
  }

  /** The chat line sent when a player cannot be located. */
  function NotFoundMessage(username: Value): string {
    "Could not find player " + ToJsString(username)
  }

  /** The cases of the switch on the tool name. */
  datatype Case = ChatCase | MoveCase | LocationCase | DefaultCase

  /** Which case of the switch a tool name selects. */
  function CaseOf(name: string): (c: Case)
    ensures c.DefaultCase? <==> name !in HandledTools
    ensures c.ChatCase? <==> name == "chat"
    ensures c.MoveCase? <==> name == "move"
    ensures c.LocationCase? <==> name == "get_player_location"
  {
    match name
    case "chat" => ChatCase
    case "move" => MoveCase
    case "get_player_location" => LocationCase
    case _ => DefaultCase
  }

  /** The effect of a `get_player_location` call for `username`. */
  function Locate(username: Value, players: Players): Effect {
    match GetPlayerLocation(players, ToJsString(username))
    case Some(location) => FollowUp(PlayerLocation(username, location))
    case None => SendChat(Str(NotFoundMessage(username)))
  }

  /** The switch on the tool name: anything but the three handled names only logs. */
  function Route(call: ToolCall, players: Players): (e: Effect)
    ensures e.LogUnknown? <==> call.name !in HandledTools
    ensures e.LogUnknown? ==> e.name == call.name
    ensures Infers(e) ==> call.name == "get_player_location"
  {
    match CaseOf(call.name)
    case ChatCase => SendChat(Arg(call, "message"))
    case MoveCase => AwaitMove(Arg(call, "x"), Arg(call, "y"), Arg(call, "z"))
    case LocationCase => Locate(Arg(call, "username"), players)
    case DefaultCase => LogUnknown(call.name)
  }

  /** The effects of handling each call of a reply, one per call, in order. */
  function RouteAll(calls: seq<ToolCall>, players: Players): (effects: seq<Effect>)
    ensures |effects| == |calls|
    ensures forall i :: 0 <= i < |calls| ==> effects[i] == Route(calls[i], players)
    decreases |calls|
  {
    if calls == [] then []
    else RouteAll(calls[..|calls| - 1], players) + [Route(calls[|calls| - 1], players)]
  }

  lemma RouteAllExtend(calls: seq<ToolCall>, i: nat, players: Players)
    requires i < |calls|
    ensures RouteAll(calls[..i + 1], players) == RouteAll(calls[..i], players) + [Route(calls[i], players)]
  {
    assert calls[..i + 1][..i] == calls[..i];
  }

  /** A `chat` call sends exactly its `message` argument and starts no round. */
  lemma ChatSendsMessage(call: ToolCall, players: Players)
    requires call.name == "chat"
    ensures Route(call, players) == SendChat(Arg(call, "message"))
    ensures !Infers(Route(call, players))
  {
  }

  /** A `move` call only requests the move to its own x, y, z; the follow-up
      round waits for the pathfinder (see Movement). */
  lemma MoveAwaitsArrival(call: ToolCall, players: Players)
    requires call.name == "move"
    ensures Route(call, players) == AwaitMove(Arg(call, "x"), Arg(call, "y"), Arg(call, "z"))
    ensures !Infers(Route(call, players))
  {
  }

  /** `get_player_location` starts exactly one follow-up round, reporting the
      player's position, when the player has an entity; otherwise it chats
      that the player was not found and starts none. */
  lemma LocationFoundOrNotFound(call: ToolCall, players: Players)
    requires call.name == "get_player_location"
    ensures var key := ToJsString(Arg(call, "username"));
            var loc := GetPlayerLocation(players, key);
            && (Infers(Route(call, players)) <==> key in players && players[key].entity.Some?)
            && (loc.Some? ==> Route(call, players) == FollowUp(PlayerLocation(Arg(call, "username"), loc.value)))
            && (loc.None? ==> Route(call, players) == SendChat(Str(NotFoundMessage(Arg(call, "username")))))
  {
  }

  /** The declared `idle` tool has no case of its own: it is only logged. */
  lemma IdleOnlyLogged(arguments: map<string, Value>, players: Players)
    ensures Route(ToolCall("idle", arguments), players) == LogUnknown("idle")
  {
  }

  /** Routing reads no argument other than the ones the declared schema of the
      call's tool lists as required: two calls of the same tool that agree on
      those arguments have the same effect. */
  lemma RouteReadsOnlyDeclaredArguments(c1: ToolCall, c2: ToolCall, players: Players)
    requires c1.name == c2.name
    requires forall k :: k in RequiredOf(DeclaredTools, c1.name) ==> Arg(c1, k) == Arg(c2, k)
    ensures Route(c1, players) == Route(c2, players)
  {
    DeclaredRequired();
    var req := RequiredOf(DeclaredTools, c1.name);
    if c1.name == "chat" {
      assert Arg(c1, req[0]) == Arg(c2, req[0]);
    } else if c1.name == "move" {
      assert Arg(c1, req[0]) == Arg(c2, req[0]);
      assert Arg(c1, req[1]) == Arg(c2, req[1]);
      assert Arg(c1, req[2]) == Arg(c2, req[2]);
    } else if c1.name == "get_player_location" {
      assert Arg(c1, req[0]) == Arg(c2, req[0]);
    }
  }
}
