/** The live objects the `keyboard` handler of index.js mutates in place: the
    spotlight's and the candle lights' intensities and the camera's position,
    held by one controller object and updated by one method per event.
 */
module ToggleController {
  import opened ToggleSpec

  class KeyboardControls {
    /** Intensity of the spotlight. */
    var spot: int
    /** Intensities of the two candle point-lights. */
    var candle1: int
    var candle2: int
    /** Position of the camera. */
    var cam: Vec3

    /** The controlled part of the scene, as a value. */
    function State(): Scene
      reads this
    {
      Scene(spot, candle1, candle2, cam)
    }

    /** The object invariant: the lights hold sentinel values, the candles agree. */
    ghost predicate Valid()
      reads this
    {
      Inv(State())
    }

    /** Start-up: the spot and candle lights are created off, the camera is
        placed at its home position. */
    constructor ()
      ensures State() == Initial
      ensures spot == 0 && candle1 == 0 && candle2 == 0 && cam == Home
      ensures Valid()
    {
      spot := 0;
      candle1 := 0;
      candle2 := 0;
      cam := Home;
    }

    /** The orbit controls' effect between key presses: the camera may end up
        anywhere, the lights are untouched. */
    method OrbitTo(p: Vec3)
      modifies this
      ensures State() == Apply(old(State()), Orbit(p))
      ensures cam == p
      ensures spot == old(spot) && candle1 == old(candle1) && candle2 == old(candle2)
      ensures old(Valid()) ==> Valid()
    {
      cam := p;
    }

    /** The key-down handler, branch by branch. */
    method HandleKey(code: int)
      modifies this
      ensures State() == Step(old(State()), code)
      ensures code == KeyQ ==> spot == (if old(spot) == 0 then 1 else 0)
      ensures code == KeyS ==> candle1 == candle2
      ensures code == KeyS ==> candle1 == (if old(candle1) == 0 && old(candle2) == 0 then 1 else 0)
      ensures code == KeyW ==> cam == WPose
      ensures code == KeySpace ==> cam == Home
      ensures code != KeyQ ==> spot == old(spot)
      ensures code != KeyS ==> candle1 == old(candle1) && candle2 == old(candle2)
      ensures code != KeyW && code != KeySpace ==> cam == old(cam)
      ensures code !in {KeyQ, KeyW, KeyS, KeySpace} ==> State() == old(State())
      ensures old(Valid()) ==> Valid()
    {
      if code == KeyQ {
        if spot == 0 {
          spot := 1;
        } else {
          spot := 0;
        }
      } else if code == KeyW {
        cam := Home;
        // `set` returns the position vector itself, and an object is truthy
        var defaultPosition := true;
        cam := WPose;
        if defaultPosition {
          // the line evaluates `defaultTarget` and discards it
        } else {
          // the reset to Home at index.js:94: `set` returned an object, so
          // this branch cannot be reached
          assert false;
        }
      } else if code == KeyS {
        if candle1 == 0 && candle2 == 0 {
          candle1 := 1;
          candle2 := 1;
        } else {
          candle1 := 0;
          candle2 := 0;
        }
      } else if code == KeySpace {
        cam := Home;
      }
    }
  }

  /** A client of the controller: from start-up, Q, an orbit move, Q, any key
      (pressed twice when it is Q) and S leave the spotlight off, the candles
      in step and the invariant intact, using only the handlers' contracts. */
  method StartupSession(p: Vec3, code: int) returns (c: KeyboardControls)
    ensures c.spot == 0
    ensures c.candle1 == c.candle2
    ensures c.Valid()
  {
    c := new KeyboardControls();
    c.HandleKey(KeyQ);
    c.OrbitTo(p);
    c.HandleKey(KeyQ);
    c.HandleKey(code);
    if code == KeyQ {
      c.HandleKey(KeyQ);
    }
    c.HandleKey(KeyS);
  }
}
