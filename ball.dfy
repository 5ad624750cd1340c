/** The ball (components/Game/Ball.tsx): a cached copy of its position
    that the physics engine's subscription keeps up to date, the reset it
    issues when a game enters play, and the per-frame fall detection that
    records a fail and puts the ball back at its spawn point. */
module Ball {
  import opened Types
  import opened Session

  /** Where the ball spawns: above the platform's centre. */
  const RESET_POSITION := Vec3(0.0, 5.0, 0.0)

  const ORIGIN := Vec3(0.0, 0.0, 0.0)

  /** Below this height the ball has fallen off the platform. */
  const FALL_THRESHOLD: real := -5.0

  /** A command to the physics engine's handle on the ball's body. */
  datatype PhysicsCommand =
    | SetPosition(position: Vec3)
    | SetVelocity(velocity: Vec3)
    | SetAngularVelocity(angularVelocity: Vec3)

  /** The commands that put the ball back at its spawn point, at rest. */
  const RESET_COMMANDS := [SetPosition(RESET_POSITION), SetVelocity(ORIGIN), SetAngularVelocity(ORIGIN)]

  /** The physical state of the ball's body, as far as the commands reach. */
  datatype Body = Body(position: Vec3, velocity: Vec3, angularVelocity: Vec3)

  /** What the engine does with a list of commands: each overwrites one part. */
  function Execute(b: Body, cmds: seq<PhysicsCommand>): Body
    decreases |cmds|
  {
    if cmds == [] then b
    else
      var b' := match cmds[0]
        case SetPosition(p) => b.(position := p)
        case SetVelocity(v) => b.(velocity := v)
        case SetAngularVelocity(w) => b.(angularVelocity := w);
      Execute(b', cmds[1..])
  }

  /** Whatever the body was doing, the reset commands leave it at the spawn
      point with no linear and no angular velocity. */
  lemma ResetCommandsRestBall(b: Body)
    ensures Execute(b, RESET_COMMANDS) == Body(RESET_POSITION, ORIGIN, ORIGIN)
  {
    var rest := [SetVelocity(ORIGIN), SetAngularVelocity(ORIGIN)];
    var last := [SetAngularVelocity(ORIGIN)];
    assert RESET_COMMANDS[1..] == rest && rest[1..] == last && last[1..] == [];
    var b1 := b.(position := RESET_POSITION);
    var b2 := b1.(velocity := ORIGIN);
    assert Execute(b, RESET_COMMANDS) == Execute(b1, rest);
    assert Execute(b1, rest) == Execute(b2, last);
    assert Execute(b2, last) == Execute(b2.(angularVelocity := ORIGIN), []);
  }

  /** The outcome of one frame: the store's new game fields and the
      commands sent to the ball's body. */
  datatype FrameOutcome = FrameOutcome(state: GameState, commands: seq<PhysicsCommand>)

  /** One frame of fall detection, given the store's fields and the cached
      height of the ball. */
  function FallStep(s: GameState, y: real): FrameOutcome {
    if s.isPlaying && y < FALL_THRESHOLD then FrameOutcome(RecordFail(s), RESET_COMMANDS)
    else FrameOutcome(s, [])
  }

  /** The store's fields after frames with the given cached heights. */
  function Frames(s: GameState, ys: seq<real>): GameState
    decreases |ys|
  {
    if ys == [] then s else Frames(FallStep(s, ys[0]).state, ys[1..])
  }

  /** While the game is not in play, frames record nothing. */
  lemma {:induction false} FramesWhileNotPlaying(s: GameState, ys: seq<real>)
    requires !s.isPlaying
    ensures Frames(s, ys) == s
    decreases |ys|
  {
    if ys != [] {
      FramesWhileNotPlaying(s, ys[1..]);
    }
  }

  /** Falling frames are fails of the store: `k` of them, from a game in
      play, run exactly like `k` calls of `recordFail`. */
  lemma {:induction false} FallingFramesAreFails(t: GameState, ys: seq<real>)
    requires t.isPlaying && !t.isGameOver && t.fails <= t.maxFails
    requires t.fails + |ys| <= t.maxFails + 1
    requires forall i :: 0 <= i < |ys| ==> ys[i] < FALL_THRESHOLD
    ensures Frames(t, ys) == Run(t, Repeat(Fail, |ys|))
    decreases |ys|
  {
    if ys != [] {
      var acts := Repeat(Fail, |ys|);
      assert acts[0] == Fail && acts[1..] == Repeat(Fail, |ys| - 1);
      var t' := RecordFail(t);
      if t.fails + 1 <= t.maxFails {
        FallingFramesAreFails(t', ys[1..]);
      } else {
        assert |ys| == 1 && ys[1..] == [] && Repeat(Fail, 0) == [];
      }
    }
  }

  /** From a start, the sixth falling frame of a five-fail budget ends the
      game with six fails, and no later frame records anything. */
  lemma SixthFallEndsGame(s: GameState, ys: seq<real>, later: seq<real>)
    requires s.maxFails == 5
    requires |ys| == 6 && forall i :: 0 <= i < |ys| ==> ys[i] < FALL_THRESHOLD
    ensures StatusOf(Frames(StartGame(s), ys[..5])) == Playing
    ensures Frames(StartGame(s), ys[..5]).fails == 5
    ensures StatusOf(Frames(StartGame(s), ys)) == GameOver
    ensures Frames(StartGame(s), ys).fails == 6
    ensures Frames(Frames(StartGame(s), ys), later) == Frames(StartGame(s), ys)
  {
    var t := StartGame(s);
    FallingFramesAreFails(t, ys[..5]);
    FallingFramesAreFails(t, ys);
    RunFails(t, 5);
    RunFails(t, 6);
    FramesWhileNotPlaying(Frames(t, ys), later);
  }

  /** The cached height changes only when the engine reports a position. A
      frame right after a fall still sees the old height if no report has
      arrived, so it counts the same fall a second time. */
  lemma StaleHeightCountsTwice(s: GameState, y: real)
    requires s.isPlaying && s.fails + 2 <= s.maxFails && y < FALL_THRESHOLD
    ensures Frames(s, [y, y]).fails == s.fails + 2
    ensures StatusOf(Frames(s, [y, y])) == Playing
  {
    assert [y, y][1..] == [y] && [y][1..] == [];
    var s1 := RecordFail(s);
    assert Frames(s, [y, y]) == Frames(s1, [y]);
    assert Frames(s1, [y]) == Frames(RecordFail(s1), []);
  }

  /** The ball component: `position` is its cached position ref. */
  class BallAgent {
    var position: Vec3

    /** Mounting creates the ref at the origin. */
    constructor ()
      ensures position == ORIGIN
    {
      position := ORIGIN;
    }

    /** The position subscription: the only writer of the cache. */
    method OnPositionUpdate(v: Vec3)
      modifies this
      ensures position == v
    {
      position := v;
    }

    /** The effect that runs when the play flags change (and on mount):
        entering play resets the ball to its spawn point at rest. */
    method ResetOnPlay(s: GameState) returns (cmds: seq<PhysicsCommand>)
      ensures s.isPlaying && !s.isGameOver ==> cmds == RESET_COMMANDS
      ensures !(s.isPlaying && !s.isGameOver) ==> cmds == []
    {
      cmds := [];
      if s.isPlaying && !s.isGameOver {
        cmds := [SetPosition(RESET_POSITION), SetVelocity(ORIGIN), SetAngularVelocity(ORIGIN)];
      }
    }

    /** One animation frame: a fall below the threshold while in play
        records exactly one fail and resets the ball; any other frame
        changes nothing and sends nothing. The cache is not written. */
    method Frame(s: GameState) returns (r: FrameOutcome)
      ensures r == FallStep(s, position.y)
      ensures (r.state != s || r.commands != []) <==> s.isPlaying && position.y < FALL_THRESHOLD
      ensures r.commands != [] ==> r.state == RecordFail(s) && r.state.fails == s.fails + 1 && r.commands == RESET_COMMANDS
    {
      if !s.isPlaying {
        return FrameOutcome(s, []);
      }
      if position.y < -5.0 {
        var s' := RecordFail(s);
        return FrameOutcome(s', [SetPosition(RESET_POSITION), SetVelocity(ORIGIN), SetAngularVelocity(ORIGIN)]);
      }
      r := FrameOutcome(s, []);
    }
  }
}
