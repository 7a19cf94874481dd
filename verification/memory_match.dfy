/**
  The in-memory record of one match: duration helpers, the five-value match
  stage, and the `MemoryMatch` object that holds scores, connection flags, the
  stage (with an optional stage-change observer) and the kinematic state whose
  two paddles the `update` step moves up and down in lock-step between the
  field's top and bottom collision edges.
 */
module MemoryMatch {

  /** Players are identified by their user id. */
  type UserId = int

  // ---------------------------------------------------------------------------
  // Duration helpers (all results in milliseconds)
  // ---------------------------------------------------------------------------

  /** A whole number of seconds, in milliseconds. */
  function Seconds(secs: int): (ms: int)
    ensures ms % 1000 == 0 && ms / 1000 == secs
  {
    secs * 1000
  }

  /** Minutes are sixty seconds. */
  function Minutes(mins: int): (ms: int)
    ensures ms == mins * 60_000
    ensures ms == Seconds(60 * mins)
  {
    mins * Seconds(60)
  }

  /** Hours are sixty minutes. */
  function Hours(h: int): (ms: int)
    ensures ms == h * 3_600_000
    ensures ms == Minutes(60 * h)
    ensures ms == Seconds(3600 * h)
  {
    h * Minutes(60)
  }

  // ---------------------------------------------------------------------------
  // Stage, kinematic state and the simulation rules the match reads
  // ---------------------------------------------------------------------------

  datatype MatchStage = AwaitingPlayers | Preparation | Ongoing | Finished | Canceled

  datatype Point = Point(x: int, y: int)

  /** The part of the kinematic snapshot that the match record touches. */
  datatype MatchState = MatchState(p1: int, p2: int, ball: Point)

  /**
    The constants the match reads from the simulation rules: where the paddles
    and the ball start, and the two vertical edges at which a paddle turns.
   */
  datatype Rules = Rules(playerStart: int, ballStart: Point, topCollisionEdge: int, bottomCollisionEdge: int)
  {
    /** The field has positive height. */
    predicate Valid() {
      topCollisionEdge < bottomCollisionEdge
    }

    /** `p` lies between the two collision edges, both included. */
    predicate Inside(p: int) {
      topCollisionEdge <= p <= bottomCollisionEdge
    }

    /** The positions the match starts from and is reset to. */
    function StartState(): (s: MatchState)
      ensures s.p1 == s.p2 == playerStart && s.ball == ballStart
    {
      MatchState(playerStart, playerStart, ballStart)
    }
  }

  /** A paddle direction: one unit down (+1) or up (-1) per step. */
  predicate IsDirection(d: int) {
    d == 1 || d == -1
  }

  // ---------------------------------------------------------------------------
  // The oscillation rule of `update`
  // ---------------------------------------------------------------------------

  /**
    The direction the paddles take on the next step, from the first paddle's
    position and the current direction: at or beyond the top edge they head
    down (+1), at or beyond the bottom edge up (-1), otherwise they keep going.
   */
  function Bounce(p1: int, increment: int, rules: Rules): (d: int)
    ensures p1 <= rules.topCollisionEdge ==> d == 1
    ensures rules.Valid() && p1 >= rules.bottomCollisionEdge ==> d == -1
    ensures rules.topCollisionEdge < p1 < rules.bottomCollisionEdge ==> d == increment
    ensures IsDirection(increment) ==> IsDirection(d)
    ensures rules.Valid() && rules.Inside(p1) && IsDirection(increment) ==> rules.Inside(p1 + d)
  {
    if p1 <= rules.topCollisionEdge then 1
    else if p1 >= rules.bottomCollisionEdge then -1
    else increment
  }

  /** Position and direction of the first paddle after `n` calls of `update`. */
  function Drift(p1: int, increment: int, rules: Rules, n: nat): (int, int)
    decreases n
  {
    if n == 0 then (p1, increment)
    else
      var d := Bounce(p1, increment, rules);
      Drift(p1 + d, d, rules, n - 1)
  }

  /** How far `p` lies outside the edges (0 when it is inside). */
  function DistanceOutside(p: int, rules: Rules): (k: nat)
    ensures k == 0 <==> rules.Inside(p)
  {
    if p < rules.topCollisionEdge then rules.topCollisionEdge - p
    else if p > rules.bottomCollisionEdge then p - rules.bottomCollisionEdge
    else 0
  }

  /** A paddle between the edges stays between them however many steps follow. */
  lemma {:induction false} DriftStaysInside(p1: int, increment: int, rules: Rules, n: nat)
    requires rules.Valid() && rules.Inside(p1) && IsDirection(increment)
    ensures rules.Inside(Drift(p1, increment, rules, n).0)
    ensures IsDirection(Drift(p1, increment, rules, n).1)
    decreases n
  {
    if n > 0 {
      var d := Bounce(p1, increment, rules);
      DriftStaysInside(p1 + d, d, rules, n - 1);
    }
  }

  /**
    A paddle that starts outside the edges walks back towards the field one
    unit per step, so once as many steps as its distance have passed it is
    between the edges (and, by DriftStaysInside, remains there).
   */
  lemma {:induction false} DriftEntersField(p1: int, increment: int, rules: Rules, n: nat)
    requires rules.Valid() && IsDirection(increment)
    requires n >= DistanceOutside(p1, rules)
    ensures rules.Inside(Drift(p1, increment, rules, n).0)
    decreases n
  {
    if DistanceOutside(p1, rules) == 0 {
      DriftStaysInside(p1, increment, rules, n);
    } else {
      var d := Bounce(p1, increment, rules);
      assert DistanceOutside(p1 + d, rules) == DistanceOutside(p1, rules) - 1;
      DriftEntersField(p1 + d, d, rules, n - 1);
    }
  }

  // ---------------------------------------------------------------------------
  // The match record
  // ---------------------------------------------------------------------------

  class MemoryMatch {
    const id: string
    const leftPlayer: UserId
    const rightPlayer: UserId
    /** The process-wide simulation rules this match reads. */
    const rules: Rules

    var leftPlayerScore: int
    var rightPlayerScore: int
    var leftPlayerConnected: bool
    var rightPlayerConnected: bool
    var stage: MatchStage
    var state: MatchState
    /** Direction of the autonomous paddle movement, +1 or -1. */
    var increment: int

    /** Whether an `onStageChange` observer is registered. */
    var hasStageObserver: bool
    /** The stages the observer has been called with, oldest first. */
    var stageNotifications: seq<MatchStage>

    /**
      The object invariant: the field has positive height, the direction is
      one unit, and the two paddles are level.
     */
    ghost predicate Valid()
      reads this
    {
      rules.Valid() && IsDirection(increment) && state.p1 == state.p2
    }

    /** Both paddles lie between the collision edges. */
    predicate PaddlesInside()
      reads this
    {
      rules.Inside(state.p1) && rules.Inside(state.p2)
    }

    constructor (id: string, leftPlayer: UserId, rightPlayer: UserId, rules: Rules)
      ensures this.id == id && this.leftPlayer == leftPlayer && this.rightPlayer == rightPlayer
      ensures this.rules == rules
      ensures stage == AwaitingPlayers
      ensures leftPlayerScore == 0 && rightPlayerScore == 0
      ensures !leftPlayerConnected && !rightPlayerConnected
      ensures state.p1 == state.p2 == rules.playerStart && state.ball == rules.ballStart
      ensures increment == 1
      ensures !hasStageObserver && stageNotifications == []
      ensures rules.Valid() ==> Valid()
      ensures PaddlesInside() <==> rules.Inside(rules.playerStart)
    {
      this.id := id;
      this.leftPlayer := leftPlayer;
      this.rightPlayer := rightPlayer;
      this.rules := rules;
      leftPlayerConnected := false;
      rightPlayerConnected := false;
      increment := 1;
      hasStageObserver := false;
      stageNotifications := [];
      leftPlayerScore := 0;
      rightPlayerScore := 0;
      stage := AwaitingPlayers;
      new;
      Init();
    }

    /** Sets the stage and hands the new stage to the observer, if there is one. */
    method UpdateStage(s: MatchStage)
      modifies this`stage, this`stageNotifications
      ensures stage == s
      ensures stageNotifications == old(stageNotifications) + (if hasStageObserver then [s] else [])
      ensures old(Valid()) ==> Valid()
    {
      stage := s;
      if hasStageObserver {
        stageNotifications := stageNotifications + [s];
      }
    }

    /**
      Gives the match a fresh kinematic state. Every field of the state that
      this model keeps is set by ResetPositions.
     */
    method Init()
      modifies this`state
      ensures state == rules.StartState()
      ensures old(Valid()) ==> Valid()
    {
      ResetPositions();
    }

    /** Puts both paddles at their start position and the ball at its start point. */
    method ResetPositions()
      modifies this`state
      ensures state.p1 == rules.playerStart && state.p2 == rules.playerStart
      ensures state.ball == rules.ballStart
      ensures old(Valid()) ==> Valid()
      ensures PaddlesInside() <==> rules.Inside(rules.playerStart)
    {
      state := state.(p1 := rules.playerStart, p2 := rules.playerStart);
      state := state.(ball := Point(rules.ballStart.x, rules.ballStart.y));
    }

    /**
      One step of the autonomous paddle movement: choose the direction from the
      first paddle's position, then move both paddles by it. The ball, scores,
      stage and connection flags are outside the frame and so unchanged.
     */
    method Update()
      modifies this`state, this`increment
      ensures increment == Bounce(old(state.p1), old(increment), rules)
      ensures state.p1 == old(state.p1) + increment && state.p2 == old(state.p2) + increment
      ensures state.ball == old(state.ball)
      ensures state.p1 - state.p2 == old(state.p1 - state.p2)
      ensures (state.p1, increment) == Drift(old(state.p1), old(increment), rules, 1)
      ensures old(Valid()) ==> Valid()
      ensures old(Valid() && PaddlesInside()) ==> PaddlesInside()
    {
      if state.p1 <= rules.topCollisionEdge {
        increment := 1;
      } else if state.p1 >= rules.bottomCollisionEdge {
        increment := -1;
      }
      state := state.(p1 := state.p1 + increment);
      state := state.(p2 := state.p2 + increment);
    }
  }
}
