# Minecraft bot agent loop, modelled in Dafny

The bot is a Minecraft client driven by a language model. Every chat message
from another player starts an inference round: `askOllama` appends a user turn
to the module-level conversation history, sends the whole history with a fixed
list of four tools (`idle`, `chat`, `move`, `get_player_location`), appends the
reply message, and hands each returned tool call to `handleBotAction`. Handling
a call chats on the server, starts a pathfinder move whose arrival is fed back
as a `moved_to` user turn, looks up a player and feeds back a `player_location`
user turn (or chats that the player was not found), or only logs an unknown
name. This project models that loop in `src/bot.ts`.

Files, one module each:

- `protocol.dfy` (`Protocol`): tool-call arguments as JSON scalars
  (`Value`, with `Undefined` for a missing property), the stimuli reported as
  user turns, reply messages, history turns, and JavaScript's `String(v)`
  coercion for the values modelled (`ToJsString`; see "## Left out" for
  numbers), which the not-found chat line and the player-table
  lookup apply to the raw `username` argument.
- `tools.dfy` (`Tools`): the declared tool list with each tool's required
  parameters, and the set of names the dispatcher has a case for.
- `world.dfy` (`World`): the client's player table and `getPlayerLocation`.
- `dispatch.dfy` (`Dispatch`): the switch of `handleBotAction` as a pure
  function `Route` from a call to an `Effect`, and `RouteAll` over a reply.
- `movement.dfy` (`Movement`): `moveToLocation`'s one-shot `goal_reached` and
  `path_update` listeners and the state of each move's promise.
- `conversation.dfy` (`Conversation`): what one round appends and dispatches,
  and the invariant the history keeps.
- `session.dfy` (`Agent`): the `Session` class holding the history and the
  registered moves, with methods for `askOllama`, the dispatch loop,
  `handleBotAction`, `moveToLocation`, the `chat` event handler and the
  pathfinder events.

The language model is a parameter: each round receives its `Reply` (a message
with optional tool calls, or `Failed`). The player table is a parameter too.
Effects that reach outside the loop are returned to the caller: `SendChat`
(a chat line to send), `FollowUp` (a round to run now with the given
observation), `LogUnknown`, and `AwaitMove`, whose listeners the session
registers itself. A pathfinder event returns the `moved_to` observations it
releases, each the user turn of a round the caller runs next.

Behaviour of the code as written that the model keeps and proves:

- `idle` is declared to the model but has no case in the switch, so it is
  only logged as an unknown action.
- The listeners of a move are `once` listeners and hear every later event,
  whichever goal it is about. Only the first `path_update` after a move is
  heard. If its status is not `noPath`, a later `noPath` does not reject the
  move (`Movement.LateNoPathIgnored`). One `goal_reached` resolves every
  pending move whose listener is still registered, and each reports arrival at
  its own target (`Movement.OneGoalReachedResolvesEveryPendingMove`).
- A failed inference request leaves the user turn in the history.
- An unknown tool name, including `idle`, adds no turn to the history, and
  neither does a move rejected by `noPath`.
- A player who is not found is reported by a chat line, not by a history turn.
- Tool calls are fired one after another without waiting for each other.

## Model

| member | source | states |
|---|---|---|
| Tools.RequiredOf | src/bot.ts:28-102 | the required parameters declared for a tool name are those of its first declaration, and none for an undeclared name |
| Tools.DeclaredRequired | src/bot.ts:28-102 | `idle` requires nothing, `chat` requires `message`, `move` requires `x`, `y`, `z`, `get_player_location` requires `username` |
| Tools.DeclaredNamesDistinct | src/bot.ts:28-102 | no tool name is declared twice |
| Tools.HandledStrictlyWithinDeclared | src/bot.ts:28-155 | the names the switch handles are a strict subset of the declared names, and they differ by exactly `idle` |
| World.GetPlayerLocation | src/bot.ts:178-188 | a position is returned exactly when the player is in the table and has an entity, and it is that entity's position; otherwise none |
| Dispatch.CaseOf | src/bot.ts:119-155 | a name selects the `chat`, `move` or `get_player_location` case exactly when it is that name, and the default case exactly when it is none of the handled names |
| Dispatch.Route | src/bot.ts:117-156 | a call is only logged exactly when its name is not one of the three handled names; only `get_player_location` can start a follow-up round |
| Dispatch.RouteAll | src/bot.ts:107-111 | one effect per tool call, the i-th being the routing of the i-th call |
| Dispatch.ChatSendsMessage | src/bot.ts:120-122 | a `chat` call sends exactly its `message` argument and starts no inference round |
| Dispatch.MoveAwaitsArrival | src/bot.ts:123-136 | a `move` call requests a move to its own `x`, `y`, `z` and starts no round by itself |
| Dispatch.LocationFoundOrNotFound | src/bot.ts:137-152 | a follow-up round starts exactly when the player has an entity, and it reports that username and location; otherwise the bot chats `Could not find player <username>` |
| Dispatch.IdleOnlyLogged | src/bot.ts:153-154 | a call of the declared `idle` tool, whatever its arguments, is only logged |
| Dispatch.RouteReadsOnlyDeclaredArguments | src/bot.ts:117-156 | two calls of one tool that agree on the parameters its declaration marks required have the same effect |
| Movement.Hear | src/bot.ts:166-174 | a listener keeps the move's target; a settled promise stays settled; a move arrives exactly when it goes from pending to resolved; it is rejected exactly when its path listener is still registered and hears `noPath` |
| Movement.Notify | src/bot.ts:166-174 | every registered move hears the event, each independently and in place |
| Movement.PathUpdateReleasesNothing | src/bot.ts:170-174 | no `path_update`, whatever its status, releases a `moved_to` observation |
| Movement.GoalReachedReleasesPending | src/bot.ts:125-168 | a `goal_reached` releases a `moved_to` observation carrying a move's own target exactly when some pending move with a registered listener has that target, and releases as many observations as there are such moves (two moves to one target give two) |
| Movement.SettledIsFinal | src/bot.ts:159-175 | once a move's promise is settled, no event changes it and it releases no further observation |
| Movement.ArrivesOnceIffResolved | src/bot.ts:125-135 | over any sequence of events a move reports arrival at most once, and exactly when its promise goes from pending to resolved |
| Movement.DisarmedResolvesOnGoal | src/bot.ts:166-174 | once its path listener has fired, a pending move is resolved exactly when some `goal_reached` arrives and is never rejected |
| Movement.MoveSettles | src/bot.ts:158-176 | a new move is rejected exactly when the first event after it is a `noPath` update, otherwise resolved exactly when a `goal_reached` arrives, and it reports arrival once exactly when resolved |
| Movement.LateNoPathIgnored | src/bot.ts:170-174 | a `noPath` update after an update whose status is not `noPath` leaves the move pending, and a later `goal_reached` still resolves it |
| Movement.FirstNoPathRejects | src/bot.ts:170-174 | a `noPath` status as the first update rejects a new move, and a second `noPath` leaves it rejected |
| Movement.OneGoalReachedResolvesEveryPendingMove | src/bot.ts:164-168 | after two moves, one `goal_reached` resolves both and releases an arrival for each at its own target |
| Conversation.InitialHistoryValid | src/bot.ts:13-19 | the history that holds only the system prompt satisfies the history invariant |
| Conversation.RoundKeepsHistoryValid | src/bot.ts:21-115 | a round, successful or failed, keeps the system prompt first and unique and never lets replies outnumber user turns in any prefix |
| Conversation.RoundAppendsInOrder | src/bot.ts:21-105 | a round leaves earlier turns as they were, appends the user turn, then the reply message exactly when the request succeeded |
| Conversation.FailedRoundDispatchesNothing | src/bot.ts:21-114 | a failed request appends only the user turn and dispatches no call and requests no move |
| Conversation.RoundDispatchesEachCallOnce | src/bot.ts:105-111 | a successful round dispatches each returned call once, in the order returned, and nothing when `tool_calls` is absent |
| Agent.Intake | src/bot.ts:190-202 | a chat message starts no round exactly when it comes from the bot's own username; otherwise it is reported with its username and message |
| Agent.Session.constructor | src/bot.ts:13-19 | the history starts as exactly the system prompt and no move is registered |
| Agent.Session.MoveToLocation | src/bot.ts:158-176 | registers one move to the given target with both listeners and a pending promise; the history is unchanged |
| Agent.Session.HandleBotAction | src/bot.ts:117-156 | returns the routed effect, registers a move exactly for a `move` call, and leaves the history unchanged |
| Agent.Session.DispatchCalls | src/bot.ts:107-111 | hands every call to the handler in order, returning the effects of all of them and registering the moves they request in that order |
| Agent.Session.AskOllama | src/bot.ts:21-115 | keeps the history invariant; the history becomes the old one plus the round's turns; the effects and registered moves are those of the reply's calls, none on failure |
| Agent.Session.OnChat | src/bot.ts:190-203 | a message from the bot's own username changes nothing; any other appends the chat user turn, then the reply, and dispatches the reply's calls |
| Agent.Session.OnPathfinderEvent | src/bot.ts:166-174 | every registered move hears the event; the observations returned are the arrivals it releases; the history is unchanged |
| Agent.MoveCallRoundTrip | src/bot.ts:123-135 | a `move` call registers a move to its own x, y, z; a first `goal_reached` releases `moved_to` with exactly those values, and a first `noPath` rejects it and releases nothing |
| Agent.ComeHereScenario | src/bot.ts:123-151 | a lookup of a visible player yields a follow-up reporting the player's position, and a move to that position reports arrival there on `goal_reached` |

## Left out

- Bot creation and connection (src/bot.ts:5-11) and loading the pathfinder plugin: library setup with no logic of its own.
- The `ollama.chat` request itself (src/bot.ts:25-103): the model name, the system prompt's wording and the schema descriptions. A round receives the request's outcome as a `Reply` parameter; the tool list keeps the names and required parameters only.
- Pathfinder internals (`Movements`, `setMovements`, `GoalBlock`, `setGoal`): a move is seen only as registered listeners plus the `goal_reached` and `path_update` events the caller delivers.
- Concurrency: the source does not await `handleBotAction`, pushes a follow-up round's user turn while the loop over tool calls is still running, and lets replies of concurrent rounds arrive in any order. The model runs each round to completion and returns follow-ups for the caller to run later, so interleavings of concurrent rounds are not modelled.
- JSON serialisation of user turns: observations are structured values, not the strings `JSON.stringify` builds (which drops undefined fields).
- Tool-call arguments that are JSON objects or arrays, and fractional numbers: `Value` holds strings, integers, booleans, null and undefined; player positions are integers.
- Protocol.ToJsString: a number is an unbounded integer written out in full decimal; JavaScript numbers are doubles, exact only up to 2^53, and `String(v)` switches to exponent notation from 10^21 on, so for numbers of that magnitude the not-found chat line and the player-table key differ from the source's.
- Console logging (src/bot.ts:113, 118, 154, 193): only the unknown-action log appears, as the `LogUnknown` effect.
- The unhandled rejection of a move rejected by `noPath` (the promise at src/bot.ts:125 has no `catch`): the model records the rejection and releases no observation; what the JavaScript runtime does with an unhandled rejection is not modelled.
- Listener removal from the emitter and the emitter's listener-count warning: fired listeners stay in `moves` as inert records.
- src/services/movement.service.ts and src/services/fight.service.ts are not part of this model: one-line event hooks into the library with no logic of their own.
