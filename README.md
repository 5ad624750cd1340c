# Rehabilitation balance game: session rules, input and profile store in Dafny

The game has the player tilt a platform with a gamepad, to keep a ball on it and
to roll it into reward cubes. A session allows a limited number of falls. This
project models the rule-bearing core of the game and proves properties of it:

- **Session store** (`Session`, store/useStore.ts). The game fields are score,
  fails, maxFails, isPlaying and isGameOver. The five actions `startGame`,
  `endGame`, `resetGame`, `incrementScore` and `recordFail` are pure transitions
  on those fields. `Run` applies a sequence of actions. Lemmas cover the fail
  limit, score accounting, the one-way game-over status and the invariant that a
  game is never both playing and over.
- **Input controller** (`Input`, services/inputController.ts). The class
  `InputController` keeps the active pad index and the cached command. Its
  connect and disconnect handlers and `GetOrientation` are methods. The pure
  mapping of one polled frame is a set of functions: a 0.1 deadzone on the left
  stick, roll inverted, yaw from the two triggers, all scaled by `MAX_TILT`
  (30 degrees). Pads follow the "standard" layout of the W3C Gamepad
  specification (section "Remapping").
- **Ball** (`Ball`, components/Game/Ball.tsx). The class `BallAgent` holds the
  cached position that the physics subscription writes. It also issues the
  reset when a game enters play, and it runs the per-frame fall check: while
  playing, a cached height below -5 records one fail and sends the ball back to
  (0, 5, 0) at rest.
- **Game scene** (`Scene`, components/Game/GameScene.tsx). Mounting the scene
  starts the game and unmounting it ends the game. A collect adds 10 points and
  re-places the reward from two `Math.random()` draws, which the model takes as
  parameters. The reward's trigger ignores its own body. The ball and the
  reward exist only while a game is in play.
- **Mock profile store** (`Profiles`, services/firebase.ts). The configuration
  always selects mock mode. Profiles live in the map `mockDb`, and the
  signed-in profile is saved in one `localStorage` slot. The model covers the
  uid derived from the email, login, register, logout, createUserProfile,
  getUserProfile and updateStats. A high score never decreases.

`Types` mirrors the records of types.ts: `UserProfile`, `GameState`,
`InputState` and `Vec3`, plus an `Option` for the source's `T | null`.

Notes on what the code does:

- `endGame` marks the game over rather than idle, so leaving the scene always
  leaves `isGameOver` set (`Scene.GameScene.Unmount`).
- `recordFail` does not look at `isPlaying`. Only the ball's frame check and
  the ball's presence in the scene keep fails from being counted outside play.
  Score is protected the same way, by the reward's presence. The count that
  ends a game is `maxFails + 1`.
- The ball's cached position changes only when the physics engine reports a
  new position, not when the ball is reset. So a frame that runs before that
  report counts the same fall twice (`Ball.StaleHeightCountsTwice`).
- Two emails with the same letters and digits, such as "a.b" and "ab", get the
  same uid. Logging in with one of them then reaches the other's profile
  (`Profiles.DistinctEmailsShareUid`).

## Model

| member | source | states |
|---|---|---|
| `Session.Initial` | store/useStore.ts:32-36 | the store on load: idle, score 0, fails 0, a budget of 5 fails; a definition, used by `ReachableStatesConsistent` and `InitialSessionFailLimit` |
| `Session.StartGame` | store/useStore.ts:38-43 | the game is Playing with score 0 and fails 0; maxFails is kept |
| `Session.EndGame` | store/useStore.ts:45 | the game is over, not playing; score, fails and maxFails are kept |
| `Session.ResetGame` | store/useStore.ts:47-52 | the game is idle (neither flag set) with score 0 and fails 0; it is not restarted |
| `Session.IncrementScore` | store/useStore.ts:54 | score grows by exactly the given points; every other field is unchanged |
| `Session.RecordFail` | store/useStore.ts:56-62 | fails grows by exactly 1; within the budget nothing else changes; past it the game is over and not playing, with score kept; consistency is preserved |
| `Session.RunPreservesConsistency` | store/useStore.ts:38-62 | any sequence of actions keeps "never both playing and over, and a game in play is within its fail budget" |
| `Session.RunKeepsMaxFails` | store/useStore.ts:38-62 | no sequence of actions changes maxFails |
| `Session.ReachableStatesConsistent` | store/useStore.ts:32-62 | from the initial state (score 0, fails 0, maxFails 5, both flags false), isPlaying and isGameOver are never both true, and maxFails stays 5 |
| `Session.RunFails` | store/useStore.ts:56-61 | k fails from a game in play: each fail within the budget keeps it playing, the one past the budget ends it; fails grows by k and score is kept |
| `Session.StartThenFails` | store/useStore.ts:38-61 | after a start, maxFails fails leave the game playing and one more gives game over with maxFails + 1 fails |
| `Session.InitialSessionFailLimit` | store/useStore.ts:32-61 | from the initial store: start then 5 fails is Playing with 5 fails, start then 6 fails is GameOver with 6 fails |
| `Session.RunIncrements` | store/useStore.ts:54 | n increments of p points add exactly n * p to the score and change nothing else |
| `Session.StartThenCollects` | store/useStore.ts:38-54 | from a fresh start, n collects of 10 points give score 10 * n, still playing |
| `Session.NotPlayingUntilStart` | store/useStore.ts:38-62 | a game that is not playing stays not playing under any actions without startGame |
| `Session.GameOverUntilStartOrReset` | store/useStore.ts:45-62 | game over persists under any actions other than startGame and resetGame |
| `Input.Deadzone` | services/inputController.ts:69-71 | a stick value is either cut to 0 or passed through unchanged, never scaled; `DeadzoneCutsOnlySmallValues` says which |
| `Input.DeadzoneCutsOnlySmallValues` | services/inputController.ts:69-71 | a stick value reads as 0 exactly when its magnitude is below 0.1; at 0.1 or above it passes through unchanged |
| `Input.Orientation` | services/inputController.ts:65-86 | a definition: the command for one frame of a present pad, described by `StickMapping`, `YawFromTriggers` and `OrientationBounded` |
| `Input.OrientationBounded` | services/inputController.ts:80-86 | with axes in [-1, 1] and trigger values in [0, 1], pitch, roll and yaw all lie in [-MAX_TILT, MAX_TILT] |
| `Input.StickMapping` | services/inputController.ts:65-84 | roll is minus axis 0 times MAX_TILT and pitch is axis 1 times MAX_TILT beyond the deadzone; roll opposes the stick's sign, pitch follows it; a missing axis gives 0 |
| `Input.YawFromTriggers` | services/inputController.ts:74-85 | yaw is (buttons[7] - buttons[6]) times MAX_TILT when both triggers exist, with no deadzone, and 0 otherwise |
| `Input.Poll` | services/inputController.ts:57-95 | a definition: the active pad's `Orientation` when present, else the cached command; described by `PollBounded` and `FrozenWithoutPad`, and the specification of `GetOrientation` |
| `Input.PollBounded` | services/inputController.ts:57-95 | a poll keeps the command within the tilt limits when the pads report standard ranges and the cached command was within them |
| `Input.FrozenWithoutPad` | services/inputController.ts:57-95 | while no poll finds the active pad, every poll returns the last command unchanged |
| `Input.AfterEvent` | services/inputController.ts:28-39 | a definition: the active index after a connect or disconnect; described by `ForeignDisconnectsIgnored` and `LastConnectWins`, and the specification of the two handlers |
| `Input.ForeignDisconnectsIgnored` | services/inputController.ts:35-39 | disconnects of pads other than the active one leave the selection unchanged |
| `Input.LastConnectWins` | services/inputController.ts:28-39 | after any events, the last pad to connect is active if only other pads have disconnected since |
| `Input.InputController.constructor` | services/inputController.ts:15-25 | a new controller has no active pad and an all-zero cached command |
| `Input.InputController.OnGamepadConnected` | services/inputController.ts:28-33 | the connected pad becomes active, whatever was active before |
| `Input.InputController.OnGamepadDisconnected` | services/inputController.ts:35-39 | the selection is cleared only when the disconnected index is the active one |
| `Input.InputController.GetOrientation` | services/inputController.ts:53-96 | with the active pad present, returns and caches that frame's command; otherwise returns the cached command, unchanged |
| `Ball.ResetCommandsRestBall` | components/Game/Ball.tsx:61-63 | the reset commands leave the body at (0, 5, 0) with zero linear and angular velocity, whatever its state before |
| `Ball.FallStep` | components/Game/Ball.tsx:53-64 | a definition: one frame's fall check; described by `FramesWhileNotPlaying`, `FallingFramesAreFails`, `SixthFallEndsGame` and `StaleHeightCountsTwice`, and the specification of `BallAgent.Frame` |
| `Ball.FramesWhileNotPlaying` | components/Game/Ball.tsx:54 | while not playing, any number of frames leaves the store unchanged |
| `Ball.FallingFramesAreFails` | components/Game/Ball.tsx:58-59 | falling frames from a game in play act exactly like that many calls of recordFail |
| `Ball.SixthFallEndsGame` | components/Game/Ball.tsx:54-59 | after a start with a budget of 5, five falling frames leave the game playing with 5 fails; the sixth gives game over with 6 fails; later frames record nothing |
| `Ball.StaleHeightCountsTwice` | components/Game/Ball.tsx:58-63 | two frames that see the same fallen height, with no new position reported between them, record two fails |
| `Ball.BallAgent.constructor` | components/Game/Ball.tsx:20 | the cached position starts at the origin |
| `Ball.BallAgent.OnPositionUpdate` | components/Game/Ball.tsx:36-41 | the position subscription sets the cached position; it is the only method that writes it |
| `Ball.BallAgent.ResetOnPlay` | components/Game/Ball.tsx:44-50 | when playing and not over, the effect sends the reset to (0, 5, 0) with zero velocities; otherwise it sends nothing |
| `Ball.BallAgent.Frame` | components/Game/Ball.tsx:53-69 | a frame changes something exactly when playing with cached y below -5 (not at -5); then it records one fail and sends the reset; it never writes the cached position |
| `Scene.RewardSpawn` | components/Game/GameScene.tsx:51-53 | the reward is placed at height 0.5 with x = (r1 - 0.5) * 8 and z = (r2 - 0.5) * 8, inside [-4, 4) for draws in [0, 1) |
| `Scene.RewardSpawnCoversSquare` | components/Game/GameScene.tsx:51-53 | each point of the square [-4, 4) x [-4, 4) comes from exactly one pair of draws in [0, 1) |
| `Scene.Collects` | components/Game/GameScene.tsx:17-21 | a definition: any body but the one named 'reward' collects; used by `GameScene.OnRewardContact` |
| `Scene.AgentsPresent` | components/Game/GameScene.tsx:99-104 | a definition: the ball and reward are mounted while playing and not over; described by `PresenceFollowsStatus` and `AgentsStayAwayAfterReset` |
| `Scene.PresenceFollowsStatus` | components/Game/GameScene.tsx:99-104 | in a consistent state, the ball and reward are present exactly when Playing, and the overlay is shown exactly when GameOver |
| `Scene.GameScene.Mount` | components/Game/GameScene.tsx:37-41 | mounting starts the game, so the ball and reward are present, and the reward starts at (2, 0.5, 2) |
| `Scene.GameScene.Unmount` | components/Game/GameScene.tsx:42-44 | unmounting ends the game: isGameOver is set and score and fails are kept |
| `Scene.GameScene.HandleCollect` | components/Game/GameScene.tsx:48-54 | a collect adds exactly 10 to the score and re-places the reward from the two draws |
| `Scene.GameScene.OnRewardContact` | components/Game/GameScene.tsx:16-21 | a contact collects exactly when the reward is present and the body is not named 'reward'; otherwise nothing changes |
| `Scene.GameScene.BallFrame` | components/Game/GameScene.tsx:99-102 | a frame runs the ball's fall check only while the ball is present; otherwise nothing changes |
| `Scene.GameScene.TryAgain` | components/Game/GameScene.tsx:67 | "Try Again" resets the game to idle: the ball and reward are gone and the overlay is hidden |
| `Scene.AgentsStayAwayAfterReset` | components/Game/GameScene.tsx:67 | after a reset, no actions without startGame bring the ball and reward back |
| `Profiles.StripNonAlnum` | services/firebase.ts:71 | removing non-[A-Za-z0-9] characters leaves only ASCII letters and digits, is no longer than its input, and leaves such a string unchanged |
| `Profiles.StripKeepsAlnum` | services/firebase.ts:71 | every ASCII letter or digit occurs in the stripped string as often as in the input |
| `Profiles.StripDistributes` | services/firebase.ts:71 | stripping a concatenation is the concatenation of the strips |
| `Profiles.MockUid` | services/firebase.ts:71 | the uid is 'mock-user-' followed only by ASCII letters and digits |
| `Profiles.SameUidIffSameAlnum` | services/firebase.ts:71 | two emails get the same uid if and only if their letters and digits agree |
| `Profiles.DistinctEmailsShareUid` | services/firebase.ts:71 | the distinct emails "a.b" and "ab" get the same uid |
| `Profiles.DefaultProfile` | services/firebase.ts:91-99 | the default login profile sits under the email's uid, holds that email, is named 'Mock User' with description 'Recovering nicely.', and has high score 0 |
| `Profiles.RegisteredProfile` | services/firebase.ts:118-124 | the registered profile sits under the email's uid, holds that email and the given name, has description 'Recovering nicely.' and high score 0 |
| `Profiles.UpdatedProfile` | services/firebase.ts:196-197 | the high score becomes the larger of the old one and the new score; the description is replaced exactly when one is given; uid, email and name are unchanged |
| `Profiles.HighScoreNeverDecreases` | services/firebase.ts:196 | after any series of score updates, the high score is at least the first high score and at least every score submitted |
| `Profiles.MockProfileStore.constructor` | services/firebase.ts:53 | on page load mockDb is empty while the saved session persists |
| `Profiles.MockProfileStore.Login` | services/firebase.ts:69-109 | a known uid keeps its profile; otherwise a saved session with the same email is recovered, else the default profile is stored; the profile becomes the saved session; the password plays no part; the store invariant is kept |
| `Profiles.MockProfileStore.Register` | services/firebase.ts:114-136 | a fresh profile with high score 0 replaces any profile under the email's uid and becomes the saved session |
| `Profiles.MockProfileStore.Logout` | services/firebase.ts:155-158 | the saved session is cleared and mockDb is unchanged |
| `Profiles.MockProfileStore.CreateUserProfile` | services/firebase.ts:166-176 | the profile is stored under its uid and refreshes the saved session of the same uid |
| `Profiles.MockProfileStore.GetUserProfile` | services/firebase.ts:182-184 | returns the stored profile exactly when the uid is in mockDb, else none; under the invariant it is that uid's profile |
| `Profiles.MockProfileStore.UpdateStats` | services/firebase.ts:194-208 | an unknown uid changes nothing; a known one gets the updated profile, with a high score that never decreases, mirrored into the saved session of the same uid |

## Left out

- Device classification, per-class deadzones and sensitivities, automatic
  reselection, explicit device switching, a disk-bounded reward sampler with
  retries, and reward co-rotation with the platform: none of these is in the
  code. The reward is drawn from the square, and selection follows only connect
  and disconnect events.
- Rendering, the HUD, the dashboard, screen routing and the store's `user` and
  `currentScreen` fields: they are presentation only.
- The physics engine: gravity, collisions, materials, damping, and the
  platform's kinematic body in components/Game/Platform.tsx. The ball's height
  is an input to each frame, and commands to the engine are values.
- The timing of rendering: a store update reaches components at their next
  render, and a physics report reaches the cache asynchronously. The model
  applies store updates at once. It shows the effect of a late physics report
  but does not model the scheduling.
- Whether the reward's physics body follows the new position after a collect:
  that depends on the physics binding. The model keeps the position the scene
  passes to the reward.
- Real Firebase branches (authentication, Firestore reads and writes,
  `onAuthStateChanged`): they are network calls. The configuration selects mock
  mode, so only mock mode is modelled. The asynchronous calls run as
  synchronous methods.
- Mock observers and `initializeAuthListener`, including its hydration of
  mockDb from the saved session: this is callback plumbing.
- JSON encoding of the saved session and its parse failures: the slot is an
  `Option<UserProfile>` that holds what was written.
- `mockDb` as a plain JavaScript object: lookups of keys such as "toString"
  find inherited properties. The model uses a map, which has no such keys.
  Profiles are values, so shared references between mockDb and callers are not
  modelled.
- Window listener registration, the singleton `getInstance`, and the unused
  `ROTATION_SPEED`: these have no rules. The handlers are plain methods.
- IEEE floating point: numbers are `real` or `int`. `MAX_TILT` is Math.PI / 6,
  with Math.PI written to the 16 digits JavaScript prints for it.
