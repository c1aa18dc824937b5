/**
 * `moveToLocation`: each move sets a pathfinder goal and registers two
 * one-shot listeners on the bot, one for `goal_reached` and one for
 * `path_update`. A listener fires on the first matching event after it is
 * registered, whichever goal that event is about, and is then removed. The
 * move's promise settles once: `goal_reached` resolves it, a `path_update`
 * whose status is `noPath` rejects it, any other status leaves it pending.
 * Only a resolved move feeds a `moved_to` observation back to the model.
 */
module Movement {
  import opened Protocol

  /** The status string a `path_update` event carries. */
  datatype PathStatus = PathStatus(name: string)

  /** Events the pathfinder emits on the bot. */
  datatype MoveEvent = GoalReached | PathUpdate(status: PathStatus)

  /** The one `path_update` the move's listener rejects on. */
  const NoPathUpdate: MoveEvent := PathUpdate(PathStatus("noPath"))

  /** The state of a move's promise. */
  datatype Outcome = Pending | Resolved | Rejected

  /** One requested move: its target, whether each one-shot listener is still
      registered, and its promise's state. */
  datatype Move = Move(x: Value, y: Value, z: Value, goalArmed: bool, pathArmed: bool, outcome: Outcome)

  /** A move just requested: both listeners registered, promise pending. */
  function Start(x: Value, y: Value, z: Value): Move {
    Move(x, y, z, true, true, Pending)
  }

  /** True when `e` resolves `m`, which is when its `.then` callback asks the
      model again with `moved_to`. */
  predicate Arrives(m: Move, e: MoveEvent) {
    e.GoalReached? && m.goalArmed && m.outcome.Pending?
  }

  /** How one move's listeners react to one event. */
  function Hear(m: Move, e: MoveEvent): (r: Move)
    ensures r.x == m.x && r.y == m.y && r.z == m.z
    ensures m.outcome != Pending ==> r.outcome == m.outcome
    ensures Arrives(m, e) <==> m.outcome.Pending? && r.outcome.Resolved?
    ensures r.outcome.Rejected? && m.outcome.Pending? <==> m.pathArmed && e == NoPathUpdate && m.outcome.Pending?
  {
    match e
    case GoalReached =>
      if m.goalArmed then
        m.(goalArmed := false, outcome := if m.outcome.Pending? then Resolved else m.outcome)
      else m
    case PathUpdate(status) =>
      if m.pathArmed then
        m.(pathArmed := false, outcome := if status.name == "noPath" && m.outcome.Pending? then Rejected else m.outcome)
      else m
  }

  /** The observation a resolved move feeds back. */
  function ArrivalOf(m: Move): Stimulus {
    MovedTo(m.x, m.y, m.z)
  }

  /** Every registered move hears the event. */
  function Notify(ms: seq<Move>, e: MoveEvent): (r: seq<Move>)
    ensures |r| == |ms|
    ensures forall i :: 0 <= i < |ms| ==> r[i] == Hear(ms[i], e)
    decreases |ms|
  {
    if ms == [] then [] else Notify(ms[..|ms| - 1], e) + [Hear(ms[|ms| - 1], e)]
  }

  /** The `moved_to` observations one event releases, in registration order. */
  function Arrivals(ms: seq<Move>, e: MoveEvent): seq<Stimulus>
    decreases |ms|
  {
    if ms == [] then []
    else Arrivals(ms[..|ms| - 1], e) + (if Arrives(ms[|ms| - 1], e) then [ArrivalOf(ms[|ms| - 1])] else [])
  }

  lemma NotifyExtend(ms: seq<Move>, i: nat, e: MoveEvent)
    requires i < |ms|
    ensures Notify(ms[..i + 1], e) == Notify(ms[..i], e) + [Hear(ms[i], e)]
    ensures Arrivals(ms[..i + 1], e) == Arrivals(ms[..i], e) + (if Arrives(ms[i], e) then [ArrivalOf(ms[i])] else [])
  {
    assert ms[..i + 1][..i] == ms[..i];
  }

  /** A `path_update` never releases an observation. */
  lemma {:induction false} PathUpdateReleasesNothing(ms: seq<Move>, status: PathStatus)
    ensures Arrivals(ms, PathUpdate(status)) == []
    decreases |ms|
  {
    if ms != [] {
      PathUpdateReleasesNothing(ms[..|ms| - 1], status);
    }
  }

  /** A `goal_reached` releases one observation for each pending move whose
      listener is still registered, carrying that move's own target, and
      nothing else. */
  lemma {:induction false} GoalReachedReleasesPending(ms: seq<Move>, s: Stimulus)
    ensures s in Arrivals(ms, GoalReached) <==>
              exists i :: 0 <= i < |ms| && ms[i].goalArmed && ms[i].outcome.Pending? && ArrivalOf(ms[i]) == s
    ensures |Arrivals(ms, GoalReached)| == |Waiting(ms)|
    decreases |ms|
  {
    if ms == [] {
      assert Waiting(ms) == {};
    } else {
      var init := ms[..|ms| - 1];
      GoalReachedReleasesPending(init, s);
      WaitingExtend(ms);
      if s in Arrivals(ms, GoalReached) && s !in Arrivals(init, GoalReached) {
        assert ArrivalOf(ms[|ms| - 1]) == s;
      }
      if exists i :: 0 <= i < |ms| && ms[i].goalArmed && ms[i].outcome.Pending? && ArrivalOf(ms[i]) == s {
        var i :| 0 <= i < |ms| && ms[i].goalArmed && ms[i].outcome.Pending? && ArrivalOf(ms[i]) == s;
        if i < |ms| - 1 {
          assert init[i] == ms[i];
        }
      }
    }
  }

  /** The indices of the pending moves whose `goal_reached` listener is still
      registered. */
  function Waiting(ms: seq<Move>): set<int> {
    set i | 0 <= i < |ms| && ms[i].goalArmed && ms[i].outcome.Pending?
  }

  lemma WaitingExtend(ms: seq<Move>)
    requires ms != []
    ensures |Waiting(ms)| == |Waiting(ms[..|ms| - 1])| + (if Arrives(ms[|ms| - 1], GoalReached) then 1 else 0)
  {
    var n := |ms| - 1;
    var init := ms[..n];
    assert |ms[..n]| == n;
    assert forall i :: 0 <= i < n ==> init[i] == ms[i];
    if Arrives(ms[n], GoalReached) {
      assert Waiting(ms) == Waiting(init) + {n};
      assert n !in Waiting(init);
    } else {
      assert Waiting(ms) == Waiting(init);
    }
  }

  /** The listeners of a move after a sequence of events, in arrival order. */
  function Run(m: Move, events: seq<MoveEvent>): Move
    decreases |events|
  {
    if events == [] then m else Run(Hear(m, events[0]), events[1..])
  }

  /** How many `moved_to` observations a move releases over a sequence of events. */
  function ArrivalCount(m: Move, events: seq<MoveEvent>): nat
    decreases |events|
  {
    if events == [] then 0
    else (if Arrives(m, events[0]) then 1 else 0) + ArrivalCount(Hear(m, events[0]), events[1..])
  }

  /** A settled promise stays settled. */
  lemma {:induction false} SettledIsFinal(m: Move, events: seq<MoveEvent>)
    requires m.outcome != Pending
    ensures Run(m, events).outcome == m.outcome
    ensures ArrivalCount(m, events) == 0
    decreases |events|
  {
    if events != [] {
      SettledIsFinal(Hear(m, events[0]), events[1..]);
    }
  }

  /** Whatever the events, a move reports arrival at most once, and exactly
      when its promise goes from pending to resolved. */
  lemma {:induction false} ArrivesOnceIffResolved(m: Move, events: seq<MoveEvent>)
    ensures ArrivalCount(m, events) == if m.outcome.Pending? && Run(m, events).outcome.Resolved? then 1 else 0
    decreases |events|
  {
    if events != [] {
      var m' := Hear(m, events[0]);
      if m'.outcome != Pending {
        SettledIsFinal(m', events[1..]);
      } else {
        ArrivesOnceIffResolved(m', events[1..]);
      }
    }
  }

  /** Once the `path_update` listener is gone, only `goal_reached` settles a
      pending move, and then it resolves it. */
  lemma {:induction false} DisarmedResolvesOnGoal(m: Move, events: seq<MoveEvent>)
    requires m.goalArmed && !m.pathArmed && m.outcome.Pending?
    ensures Run(m, events).outcome.Resolved? <==> GoalReached in events
    ensures !Run(m, events).outcome.Rejected?
    decreases |events|
  {
    if events != [] {
      if events[0].GoalReached? {
        SettledIsFinal(Hear(m, events[0]), events[1..]);
      } else {
        assert Hear(m, events[0]) == m;
        DisarmedResolvesOnGoal(m, events[1..]);
        assert events == [events[0]] + events[1..];
      }
    }
  }

  /** How a move requested at (x, y, z) settles over the events that follow
      it: only the first `path_update` is listened to, so it is rejected
      exactly when the first event is a `noPath` update, and otherwise
      resolved exactly when some `goal_reached` arrives. */
  lemma {:induction false} MoveSettles(x: Value, y: Value, z: Value, events: seq<MoveEvent>)
    ensures Run(Start(x, y, z), events).outcome.Rejected? <==> |events| > 0 && events[0] == NoPathUpdate
    ensures Run(Start(x, y, z), events).outcome.Resolved? <==>
              GoalReached in events && !(|events| > 0 && events[0] == NoPathUpdate)
    ensures ArrivalCount(Start(x, y, z), events) == if Run(Start(x, y, z), events).outcome.Resolved? then 1 else 0
  {
    var m := Start(x, y, z);
    ArrivesOnceIffResolved(m, events);
    if events != [] {
      var m' := Hear(m, events[0]);
      if events[0].GoalReached? || events[0] == NoPathUpdate {
        SettledIsFinal(m', events[1..]);
      } else {
        DisarmedResolvesOnGoal(m', events[1..]);
        assert events == [events[0]] + events[1..];
      }
    }
  }

  /** A `noPath` update that follows another status is not heard: the move
      stays pending and can still be resolved. */
  lemma LateNoPathIgnored(x: Value, y: Value, z: Value, status: string)
    requires status != "noPath"
    ensures Run(Start(x, y, z), [PathUpdate(PathStatus(status)), NoPathUpdate]).outcome == Pending
    ensures Run(Start(x, y, z), [PathUpdate(PathStatus(status)), NoPathUpdate, GoalReached]).outcome == Resolved
  {
    MoveSettles(x, y, z, [PathUpdate(PathStatus(status)), NoPathUpdate]);
    MoveSettles(x, y, z, [PathUpdate(PathStatus(status)), NoPathUpdate, GoalReached]);
  }

  /** A first `noPath` update rejects a new move, and so does a second one:
      the first already settled it. */
  lemma FirstNoPathRejects(x: Value, y: Value, z: Value)
    ensures Run(Start(x, y, z), [NoPathUpdate]).outcome == Rejected
    ensures Run(Start(x, y, z), [NoPathUpdate, NoPathUpdate]).outcome == Rejected
  {
    MoveSettles(x, y, z, [NoPathUpdate]);
    MoveSettles(x, y, z, [NoPathUpdate, NoPathUpdate]);
  }

  /** Listeners of an earlier move still hear the events of a later goal: one
      `goal_reached` after two moves resolves both, and each reports arrival
      at its own target. */
  lemma OneGoalReachedResolvesEveryPendingMove(a: Position, b: Position)
    ensures var ms := [Start(Num(a.x), Num(a.y), Num(a.z)), Start(Num(b.x), Num(b.y), Num(b.z))];
            && Arrivals(ms, GoalReached) == [MovedTo(Num(a.x), Num(a.y), Num(a.z)), MovedTo(Num(b.x), Num(b.y), Num(b.z))]
            && forall i :: 0 <= i < 2 ==> Notify(ms, GoalReached)[i].outcome == Resolved
  {
    var ms := [Start(Num(a.x), Num(a.y), Num(a.z)), Start(Num(b.x), Num(b.y), Num(b.z))];
    assert ms[..1] == [ms[0]] && ms[..1][..0] == [];
    assert Arrivals(ms[..1], GoalReached) == [ArrivalOf(ms[0])];
  }
}
