/** The records the game shares between its components (types.ts), and an
    Option type standing for the source's `T | null` values. */
module Types {

  /** `T | null`: a value that may be absent. */
  datatype Option<+T> = None | Some(value: T)

  /** A user's profile as the profile service stores it. */
  datatype UserProfile = UserProfile(
    uid: string,
    email: Option<string>,
    displayName: Option<string>,
    description: string,
    highScore: int)

  /** The game fields of the session store. */
  datatype GameState = GameState(
    isPlaying: bool,
    score: int,
    fails: nat,
    maxFails: nat,
    isGameOver: bool)

  /** A platform orientation command in radians: pitch turns about X,
      roll about Z, yaw about Y. */
  datatype InputState = InputState(pitch: real, roll: real, yaw: real)

  datatype Vec3 = Vec3(x: real, y: real, z: real)
}
