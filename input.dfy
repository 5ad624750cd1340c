/** The input controller (services/inputController.ts): which gamepad is
    active, and how one polled frame of that pad becomes a platform
    orientation. Pads follow the "standard" layout of the W3C Gamepad
    specification (section "Remapping"): axes 0 and 1 are the left stick,
    buttons 6 and 7 the analog triggers. */
module Input {
  import opened Types

  /** Math.PI, to the digits JavaScript prints for it. */
  const PI: real := 3.141592653589793

  /** The largest tilt in each direction: 30 degrees. */
  const MAX_TILT: real := PI / 6.0

  /** Stick values smaller than this in magnitude read as neutral. */
  const DEADZONE: real := 0.1

  const NEUTRAL := InputState(pitch := 0.0, roll := 0.0, yaw := 0.0)

  /** One connected pad in the navigator's list: its axis values and the
      values of its buttons, by index. */
  datatype Gamepad = Gamepad(axes: seq<real>, buttons: seq<real>)

  function Abs(v: real): real {
    if v < 0.0 then -v else v
  }

  /** An axis the pad does not report reads as 0. */
  function Axis(gp: Gamepad, i: nat): real {
    if i < |gp.axes| then gp.axes[i] else 0.0
  }

  /** A stick value is either cut to 0 or passed through: never scaled. */
  function Deadzone(v: real): (r: real)
    ensures r == 0.0 || r == v
    ensures Abs(r) <= Abs(v)
  {
    if Abs(v) < DEADZONE then 0.0 else v
  }

  /** Right trigger minus left trigger, when the pad has both. */
  function TriggerYaw(gp: Gamepad): real {
    if |gp.buttons| > 7 then gp.buttons[7] - gp.buttons[6] else 0.0
  }

  /** The orientation command for one frame of a present pad. */
  function Orientation(gp: Gamepad): InputState {
    InputState(
      pitch := Deadzone(Axis(gp, 1)) * MAX_TILT,
      roll := -Deadzone(Axis(gp, 0)) * MAX_TILT,
      yaw := TriggerYaw(gp) * MAX_TILT)
  }

  /** The ranges the Gamepad specification gives: axes in [-1, 1],
      button values in [0, 1]. */
  predicate StandardRanges(gp: Gamepad) {
    && (forall i :: 0 <= i < |gp.axes| ==> -1.0 <= gp.axes[i] <= 1.0)
    && (forall j :: 0 <= j < |gp.buttons| ==> 0.0 <= gp.buttons[j] <= 1.0)
  }

  predicate Bounded(c: InputState) {
    Abs(c.pitch) <= MAX_TILT && Abs(c.roll) <= MAX_TILT && Abs(c.yaw) <= MAX_TILT
  }

  /** A stick value below the deadzone contributes exactly nothing; one at
      or above it passes through unchanged. */
  lemma DeadzoneCutsOnlySmallValues(v: real)
    ensures Deadzone(v) == 0.0 <==> Abs(v) < DEADZONE
    ensures Abs(v) >= DEADZONE ==> Deadzone(v) == v
    ensures Deadzone(DEADZONE) == DEADZONE && Deadzone(-DEADZONE) == -DEADZONE
  {
  }

  /** Every command lies within the tilt limit when the pad reports values
      in the standard ranges. */
  lemma OrientationBounded(gp: Gamepad)
    requires StandardRanges(gp)
    ensures Bounded(Orientation(gp))
  {
  }

  /** Roll turns against the stick's X direction, pitch with its Y
      direction, each scaled by the tilt limit. */
  lemma StickMapping(gp: Gamepad)
    ensures Abs(Axis(gp, 0)) >= DEADZONE ==> Orientation(gp).roll == -Axis(gp, 0) * MAX_TILT
    ensures Abs(Axis(gp, 1)) >= DEADZONE ==> Orientation(gp).pitch == Axis(gp, 1) * MAX_TILT
    ensures Axis(gp, 0) > 0.0 ==> Orientation(gp).roll <= 0.0
    ensures Axis(gp, 0) < 0.0 ==> Orientation(gp).roll >= 0.0
    ensures Axis(gp, 1) > 0.0 ==> Orientation(gp).pitch >= 0.0
    ensures Axis(gp, 1) < 0.0 ==> Orientation(gp).pitch <= 0.0
    ensures |gp.axes| <= 1 ==> Orientation(gp).pitch == 0.0
    ensures |gp.axes| == 0 ==> Orientation(gp).roll == 0.0
  {
  }

  /** Yaw is the trigger difference scaled, with no deadzone: even a small
      difference turns the platform; a pad without both triggers gives 0. */
  lemma YawFromTriggers(gp: Gamepad)
    ensures |gp.buttons| > 7 ==> Orientation(gp).yaw == (gp.buttons[7] - gp.buttons[6]) * MAX_TILT
    ensures |gp.buttons| > 7 && gp.buttons[7] != gp.buttons[6] ==> Orientation(gp).yaw != 0.0
    ensures |gp.buttons| <= 7 ==> Orientation(gp).yaw == 0.0
  {
  }

  /** The active pad, if the polled list has a pad at the active index. */
  function ActivePad(active: Option<nat>, pads: seq<Option<Gamepad>>): Option<Gamepad> {
    if active.Some? && active.value < |pads| then pads[active.value] else None
  }

  /** What one poll returns: the fresh command of the active pad, or the
      last command when no active pad is present ("freeze"). */
  function Poll(active: Option<nat>, last: InputState, pads: seq<Option<Gamepad>>): InputState {
    match ActivePad(active, pads)
    case Some(gp) => Orientation(gp)
    case None => last
  }

  /** Polls keep the commands within the tilt limit, provided the pads
      report standard ranges and the cached command already was. */
  lemma PollBounded(active: Option<nat>, last: InputState, pads: seq<Option<Gamepad>>)
    requires Bounded(last)
    requires forall i :: 0 <= i < |pads| && pads[i].Some? ==> StandardRanges(pads[i].value)
    ensures Bounded(Poll(active, last, pads))
  {
    if ActivePad(active, pads).Some? {
      OrientationBounded(ActivePad(active, pads).value);
    }
  }

  /** A sequence of polls; the result is the command the last one returns. */
  function Polls(active: Option<nat>, last: InputState, frames: seq<seq<Option<Gamepad>>>): InputState
    decreases |frames|
  {
    if frames == [] then last else Polls(active, Poll(active, last, frames[0]), frames[1..])
  }

  /** While no poll finds the active pad the output stays frozen at the
      last command, and from a new controller that is all zeros. */
  lemma {:induction false} FrozenWithoutPad(active: Option<nat>, last: InputState, frames: seq<seq<Option<Gamepad>>>)
    requires forall k :: 0 <= k < |frames| ==> ActivePad(active, frames[k]).None?
    ensures Polls(active, last, frames) == last
    decreases |frames|
  {
    if frames != [] {
      FrozenWithoutPad(active, last, frames[1..]);
    }
  }

  /** Connect and disconnect events of the navigator. */
  datatype PadEvent = Connected(index: nat) | Disconnected(index: nat)

  /** The active index after one event: a connect always takes over; a
      disconnect clears only the active pad. */
  function AfterEvent(active: Option<nat>, e: PadEvent): Option<nat> {
    match e
    case Connected(i) => Some(i)
    case Disconnected(i) => if active == Some(i) then None else active
  }

  function AfterEvents(active: Option<nat>, es: seq<PadEvent>): Option<nat>
    decreases |es|
  {
    if es == [] then active else AfterEvents(AfterEvent(active, es[0]), es[1..])
  }

  /** Disconnects of pads other than the active one change nothing. */
  lemma {:induction false} ForeignDisconnectsIgnored(i: nat, es: seq<PadEvent>)
    requires forall j :: 0 <= j < |es| ==> es[j].Disconnected? && es[j].index != i
    ensures AfterEvents(Some(i), es) == Some(i)
    decreases |es|
  {
    if es != [] {
      ForeignDisconnectsIgnored(i, es[1..]);
    }
  }

  /** The last pad to connect is active, unless it has since been
      disconnected: only disconnects of other pads follow it. */
  lemma {:induction false} LastConnectWins(active: Option<nat>, es: seq<PadEvent>, k: nat, i: nat)
    requires k < |es| && es[k] == Connected(i)
    requires forall j :: k < j < |es| ==> es[j].Disconnected? && es[j].index != i
    ensures AfterEvents(active, es) == Some(i)
    decreases |es|
  {
    if k == 0 {
      ForeignDisconnectsIgnored(i, es[1..]);
    } else {
      LastConnectWins(AfterEvent(active, es[0]), es[1..], k - 1, i);
    }
  }

  /** The input controller: the active pad's index and the cached command. */
  class InputController {
    var gamepadIndex: Option<nat>
    var currentState: InputState

    constructor ()
      ensures gamepadIndex == None && currentState == NEUTRAL
    {
      gamepadIndex := None;
      currentState := NEUTRAL;
    }

    /** The "gamepadconnected" handler. */
    method OnGamepadConnected(index: nat)
      modifies this`gamepadIndex
      ensures gamepadIndex == AfterEvent(old(gamepadIndex), Connected(index))
      ensures gamepadIndex == Some(index)
    {
      gamepadIndex := Some(index);
    }

    /** The "gamepaddisconnected" handler. */
    method OnGamepadDisconnected(index: nat)
      modifies this`gamepadIndex
      ensures gamepadIndex == AfterEvent(old(gamepadIndex), Disconnected(index))
      ensures old(gamepadIndex) != Some(index) ==> gamepadIndex == old(gamepadIndex)
    {
      if gamepadIndex == Some(index) {
        gamepadIndex := None;
      }
    }

    /** Polls the navigator's pad list `pads` and returns the orientation. */
    method GetOrientation(pads: seq<Option<Gamepad>>) returns (r: InputState)
      modifies this`currentState
      ensures r == currentState == Poll(gamepadIndex, old(currentState), pads)
      ensures ActivePad(gamepadIndex, pads).None? ==> r == old(currentState)
      ensures ActivePad(gamepadIndex, pads).Some? ==> r == Orientation(ActivePad(gamepadIndex, pads).value)
    {
      if gamepadIndex.Some? && gamepadIndex.value < |pads| && pads[gamepadIndex.value].Some? {
        var gp := pads[gamepadIndex.value].value;
        var rawRoll := if 0 < |gp.axes| then gp.axes[0] else 0.0;
        var rawPitch := if 1 < |gp.axes| then gp.axes[1] else 0.0;
        var roll := if Abs(rawRoll) < DEADZONE then 0.0 else rawRoll;
        var pitch := if Abs(rawPitch) < DEADZONE then 0.0 else rawPitch;
        var yaw := 0.0;
        if |gp.buttons| > 7 {
          yaw := gp.buttons[7] - gp.buttons[6];
        }
        currentState := InputState(pitch := pitch * MAX_TILT, roll := -roll * MAX_TILT, yaw := yaw * MAX_TILT);
      }
      r := currentState;
    }
  }
}
