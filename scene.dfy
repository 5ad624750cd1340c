/** The game scene (components/Game/GameScene.tsx): it starts the game
    when it mounts and ends it when it unmounts, shows the ball and the
    reward only while a game is in play, and on each collect adds 10 points
    and places the reward at a random point of the square [-4, 4) x [-4, 4)
    at height 0.5. The two `Math.random()` draws are parameters. */
module Scene {
  import opened Types
  import opened Session
  import opened Ball

  /** Points for one collected reward. */
  const REWARD_POINTS: int := 10

  /** Height of the reward above the platform's centre plane. */
  const REWARD_HEIGHT: real := 0.5

  /** Where the reward sits when the scene mounts. */
  const INITIAL_REWARD_POSITION := Vec3(2.0, REWARD_HEIGHT, 2.0)

  /** The name of the reward's own body, which the trigger ignores. */
  const REWARD_BODY_NAME: string := "reward"

  /** The new reward position for two draws of `Math.random()`. */
  function RewardSpawn(r1: real, r2: real): (p: Vec3)
    ensures p.y == REWARD_HEIGHT
    ensures 0.0 <= r1 < 1.0 ==> -4.0 <= p.x < 4.0
    ensures 0.0 <= r2 < 1.0 ==> -4.0 <= p.z < 4.0
  {
    Vec3((r1 - 0.5) * 8.0, REWARD_HEIGHT, (r2 - 0.5) * 8.0)
  }

  /** Every point of the square [-4, 4) x [-4, 4) is reached by exactly one
      pair of draws in [0, 1): the spawn covers the whole square, not a
      disk, and treats its points alike. */
  lemma RewardSpawnCoversSquare(x: real, z: real)
    requires -4.0 <= x < 4.0 && -4.0 <= z < 4.0
    ensures var r1, r2 := x / 8.0 + 0.5, z / 8.0 + 0.5;
      0.0 <= r1 < 1.0 && 0.0 <= r2 < 1.0 && RewardSpawn(r1, r2) == Vec3(x, REWARD_HEIGHT, z)
    ensures forall r1: real, r2: real ::
      RewardSpawn(r1, r2) == Vec3(x, REWARD_HEIGHT, z) ==> r1 == x / 8.0 + 0.5 && r2 == z / 8.0 + 0.5
  {
  }

  /** The trigger's filter: any body but the reward itself collects. */
  predicate Collects(bodyName: string) {
    bodyName != REWARD_BODY_NAME
  }

  /** The ball and the reward are mounted exactly while a game is in play. */
  predicate AgentsPresent(s: GameState) {
    s.isPlaying && !s.isGameOver
  }

  /** The "Training Finished" overlay is shown exactly when the game is over. */
  predicate OverlayShown(s: GameState) {
    s.isGameOver
  }

  /** In every consistent state the agents are present exactly in the
      Playing status, and the overlay exactly in the GameOver status. */
  lemma PresenceFollowsStatus(s: GameState)
    requires Consistent(s)
    ensures AgentsPresent(s) <==> StatusOf(s) == Playing
    ensures OverlayShown(s) <==> StatusOf(s) == GameOver
  {
  }

  /** The scene: the store's game fields it drives and its reward position. */
  class GameScene {
    var session: GameState
    var rewardPos: Vec3

    /** Mounting the scene calls `startGame` on the store `store`. */
    constructor Mount(store: GameState)
      ensures session == StartGame(store)
      ensures rewardPos == INITIAL_REWARD_POSITION
      ensures AgentsPresent(session) && !OverlayShown(session)
    {
      session := StartGame(store);
      rewardPos := INITIAL_REWARD_POSITION;
    }

    /** Unmounting calls `endGame`: leaving the scene always leaves the
        store over, with score and fails kept. */
    method Unmount()
      modifies this`session
      ensures session == EndGame(old(session))
      ensures session.isGameOver && !AgentsPresent(session)
      ensures session.score == old(session).score && session.fails == old(session).fails
    {
      session := EndGame(session);
    }

    /** `handleCollect`: 10 points, and a fresh reward position. */
    method HandleCollect(r1: real, r2: real)
      modifies this
      ensures session == IncrementScore(old(session), REWARD_POINTS)
      ensures session.score == old(session).score + 10
      ensures rewardPos == RewardSpawn(r1, r2)
    {
      session := IncrementScore(session, REWARD_POINTS);
      var x := (r1 - 0.5) * 8.0;
      var z := (r2 - 0.5) * 8.0;
      rewardPos := Vec3(x, 0.5, z);
    }

    /** A contact reported by the reward's trigger volume. The reward is
        mounted only while the agents are present, so no contact reaches
        it otherwise; a contact from the reward's own body is ignored. */
    method OnRewardContact(bodyName: string, r1: real, r2: real)
      modifies this
      ensures AgentsPresent(old(session)) && Collects(bodyName) ==>
        session == IncrementScore(old(session), REWARD_POINTS) && rewardPos == RewardSpawn(r1, r2)
      ensures !(AgentsPresent(old(session)) && Collects(bodyName)) ==>
        session == old(session) && rewardPos == old(rewardPos)
    {
      if AgentsPresent(session) && bodyName != "reward" {
        HandleCollect(r1, r2);
      }
    }

    /** One frame of the mounted ball `ball`, applied to the store. */
    method BallFrame(ball: BallAgent) returns (cmds: seq<PhysicsCommand>)
      modifies this`session
      ensures AgentsPresent(old(session)) ==>
        FrameOutcome(session, cmds) == FallStep(old(session), ball.position.y)
      ensures !AgentsPresent(old(session)) ==> session == old(session) && cmds == []
    {
      cmds := [];
      if AgentsPresent(session) {
        var outcome := ball.Frame(session);
        session := outcome.state;
        cmds := outcome.commands;
      }
    }

    /** "Try Again" calls `resetGame`: the game is idle, not restarted, so
        the ball and the reward stay away until the next start. */
    method TryAgain()
      modifies this`session
      ensures session == ResetGame(old(session))
      ensures !AgentsPresent(session) && !OverlayShown(session)
    {
      session := ResetGame(session);
    }
  }

  /** After "Try Again" no sequence of store actions without `startGame`
      brings the ball and the reward back. */
  lemma AgentsStayAwayAfterReset(s: GameState, acts: seq<Action>)
    requires forall i :: 0 <= i < |acts| ==> acts[i] != Start
    ensures !AgentsPresent(Run(ResetGame(s), acts))
  {
    NotPlayingUntilStart(ResetGame(s), acts);
  }
}
