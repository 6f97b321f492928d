/** Worked examples of one recomputation, each derived only from the contract of
    App.Recompute. Scenario A is the application's initial input state. */
module Scenarios {
  import opened Types
  import App

  /** Wall 200, pictures 30 wide, three of them: gaps of 27.5, nails at 42.5, 100 and 157.5. */
  method ScenarioInitialState() returns (measurements: Option<Measurements>, nailPositions: seq<real>)
    ensures measurements == Some(Measurements(27.5, 27.5, 27.5))
    ensures nailPositions == [42.5, 100.0, 157.5]
  {
    measurements, nailPositions := App.Recompute(200.0, 30.0, 3);
  }

  /** Wall 90, three pictures 30 wide: no gaps at all, nails at 15, 45 and 75. */
  method ScenarioExactFit() returns (measurements: Option<Measurements>, nailPositions: seq<real>)
    ensures measurements == Some(Measurements(0.0, 0.0, 0.0))
    ensures nailPositions == [15.0, 45.0, 75.0]
  {
    measurements, nailPositions := App.Recompute(90.0, 30.0, 3);
  }

  /** Wall 50, three pictures 30 wide: they do not fit, and there are no nails. */
  method ScenarioOverflow() returns (measurements: Option<Measurements>, nailPositions: seq<real>)
    ensures measurements == None
    ensures nailPositions == []
  {
    measurements, nailPositions := App.Recompute(50.0, 30.0, 3);
  }

  /** No pictures, whatever the wall and the width: does not fit, and there are no nails. */
  method ScenarioNoImages(wallLength: real, imageWidth: real)
    returns (measurements: Option<Measurements>, nailPositions: seq<real>)
    ensures measurements == None
    ensures nailPositions == []
  {
    measurements, nailPositions := App.Recompute(wallLength, imageWidth, 0);
  }
}
