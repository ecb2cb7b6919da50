/** Velocity perturbation: a draw `r` from [-100, 100] (the service's random
    integer) scales velocity by `1 + percent * r / 100`. */
module Perturbation {
  import opened Arith

  /** The perturbed velocity for one draw. */
  function Perturb(velocity: real, percent: real, draw: int): (v: real)
    requires -100 <= draw <= 100
    ensures velocity == 0.0 ==> v == 0.0
    ensures percent == 0.0 || draw == 0 ==> v == velocity
  {
    var randomNumPercent := draw as real / 100.0;
    var percentToVary := percent * randomNumPercent;
    velocity + velocity * percentToVary
  }

  /** For every draw, the perturbation moves velocity by at most
      `|velocity| * percent`. */
  lemma PerturbationBounded(velocity: real, percent: real, draw: int)
    requires -100 <= draw <= 100 && percent >= 0.0
    ensures RealAbs(Perturb(velocity, percent, draw) - velocity) <= RealAbs(velocity) * percent
  {
    var f := draw as real / 100.0;
    var g := percent * f;
    assert Perturb(velocity, percent, draw) - velocity == velocity * g;
    AbsProduct(percent, f);
    ScaleLe(percent, RealAbs(f), 1.0);
    assert RealAbs(g) <= percent;
    AbsProduct(velocity, g);
    ScaleLe(RealAbs(velocity), RealAbs(g), percent);
  }

  /** A magnitude of at most 100% never reverses the direction of travel. */
  lemma PerturbationKeepsDirection(velocity: real, percent: real, draw: int)
    requires -100 <= draw <= 100 && 0.0 <= percent <= 1.0
    ensures velocity >= 0.0 ==> Perturb(velocity, percent, draw) >= 0.0
    ensures velocity <= 0.0 ==> Perturb(velocity, percent, draw) <= 0.0
  {
    PerturbationBounded(velocity, percent, draw);
    var p := Perturb(velocity, percent, draw);
    calc {
      RealAbs(p - velocity);
    <=
      RealAbs(velocity) * percent;
    <= { ScaleLe(RealAbs(velocity), percent, 1.0); }
      RealAbs(velocity) * 1.0;
    ==
      RealAbs(velocity);
    }
  }
}
