/** The control panel of the swinging-fan sketch (002/script.js): five buttons
    (POWER, SWING, LOW, MID, HIGH) drive two local flags of the page script and
    the two speed fields of the scene object; every frame the blade turns by
    `speed` and the swing angle advances by `speed_swing`. */
module FanPanel {

  // The speed constants the handlers pass to the setters.
  const Stop: real := 0.0
  const Speed0: real := 0.05
  const Speed1: real := 0.1
  const Speed2: real := 0.15
  const SwingSpeed: real := 0.5

  datatype Button = Power | Swing | Low | Mid | High

  /** Everything the handlers read or write: the page script's `isPowerOn`
      and `isSwingOn`, and the scene object's `speed` and `speed_swing`. */
  datatype Panel = Panel(isPowerOn: bool, isSwingOn: bool, speed: real, speedSwing: real)

  /** The state before any button is pressed. */
  const Initial: Panel := Panel(false, false, Stop, Stop)

  /** The blade speed a LOW, MID or HIGH press selects. */
  function SpeedOf(b: Button): (s: real)
    requires b in {Low, Mid, High}
    ensures s in {Speed0, Speed1, Speed2}
    ensures s != Stop
  {
    match b
    case Low => Speed0
    case Mid => Speed1
    case High => Speed2
  }

  /** The invariant every reachable panel keeps: the blade turns exactly when
      the power is on, at one of the three speeds; the swing speed is 0 or 0.5,
      and a non-zero swing speed means both flags are set. */
  predicate Inv(p: Panel) {
    && (p.speed == Stop <==> !p.isPowerOn)
    && p.speed in {Stop, Speed0, Speed1, Speed2}
    && p.speedSwing in {Stop, SwingSpeed}
    && (p.speedSwing != Stop ==> p.isPowerOn && p.isSwingOn)
  }

  lemma InitialSatisfiesInv()
    ensures Inv(Initial)
    ensures !Initial.isPowerOn && !Initial.isSwingOn
    ensures Initial.speed == 0.0 && Initial.speedSwing == 0.0
  {
  }

  /** The effect of one button press. */
  function Press(p: Panel, b: Button): (q: Panel)
    ensures Inv(p) ==> Inv(q)
    // POWER toggles the power flag and never touches the swing flag; turning
    // on selects the lowest speed, turning off zeroes both speeds.
    ensures b == Power ==> q.isPowerOn == !p.isPowerOn && q.isSwingOn == p.isSwingOn
    ensures b == Power && q.isPowerOn ==> q.speed == Speed0 && q.speedSwing == p.speedSwing
    ensures b == Power && !q.isPowerOn ==> q.speed == Stop && q.speedSwing == Stop
    // SWING starts swinging only from powered and not swinging; every other
    // press stops it and clears the flag. Power and blade speed are untouched.
    ensures b == Swing ==> q.isPowerOn == p.isPowerOn && q.speed == p.speed
    ensures b == Swing ==> (q.isSwingOn <==> p.isPowerOn && !p.isSwingOn)
    ensures b == Swing ==> q.speedSwing == (if q.isSwingOn then SwingSpeed else Stop)
    // LOW, MID and HIGH only set the blade speed, and only while powered.
    ensures b in {Low, Mid, High} && !p.isPowerOn ==> q == p
    ensures b in {Low, Mid, High} && p.isPowerOn ==> q == p.(speed := SpeedOf(b))
  {
    match b
    case Power =>
      if !p.isPowerOn then p.(speed := Speed0, isPowerOn := true)
      else p.(speed := Stop, speedSwing := Stop, isPowerOn := false)
    case Swing =>
      if !p.isSwingOn && p.isPowerOn then p.(speedSwing := SwingSpeed, isSwingOn := true)
      else p.(speedSwing := Stop, isSwingOn := false)
    case Low => if p.isPowerOn then p.(speed := Speed0) else p
    case Mid => if p.isPowerOn then p.(speed := Speed1) else p
    case High => if p.isPowerOn then p.(speed := Speed2) else p
  }

  /** The effect of a sequence of presses, first press first. */
  function Run(p: Panel, presses: seq<Button>): (q: Panel)
    ensures Inv(p) ==> Inv(q)
    decreases |presses|
  {
    if presses == [] then p else Run(Press(p, presses[0]), presses[1..])
  }

  /** Whatever the buttons pressed since the page loaded, the panel satisfies
      the invariant. */
  lemma ReachableSatisfiesInv(presses: seq<Button>)
    ensures Inv(Run(Initial, presses))
  {
  }

  /** `n` presses of the same button. */
  function Repeat(b: Button, n: nat): (bs: seq<Button>)
    ensures |bs| == n
    ensures forall i :: 0 <= i < n ==> bs[i] == b
  {
    if n == 0 then [] else [b] + Repeat(b, n - 1)
  }

  /** Consecutive POWER presses alternate the power flag. */
  lemma {:induction false} PowerPressesAlternate(p: Panel, n: nat)
    ensures Run(p, Repeat(Power, n)).isPowerOn == (if n % 2 == 0 then p.isPowerOn else !p.isPowerOn)
    ensures Run(p, Repeat(Power, n)).isSwingOn == p.isSwingOn
    decreases n
  {
    if n > 0 {
      var bs := Repeat(Power, n);
      assert bs[0] == Power && bs[1..] == Repeat(Power, n - 1);
      PowerPressesAlternate(Press(p, Power), n - 1);
    }
  }

  /** Switching off while swinging leaves the swing flag set; after switching
      back on, the first SWING press only clears that stale flag, and it takes a
      second press to start swinging. */
  lemma StaleSwingFlag(p: Panel)
    requires Inv(p) && p.isPowerOn && p.isSwingOn
    ensures Run(p, [Power]).isSwingOn && Run(p, [Power]).speedSwing == Stop
    ensures var q := Run(p, [Power, Power, Swing]);
      q.isPowerOn && !q.isSwingOn && q.speedSwing == Stop
    ensures Run(p, [Power, Power, Swing, Swing]).speedSwing == SwingSpeed
  {
  }

  /** What one frame turns: the blade's x rotation and the swing angle in degrees. */
  datatype Rotor = Rotor(bladeRotationX: real, degree: real)

  /** `n` frames at fixed speeds. */
  function Frames(r: Rotor, speed: real, speedSwing: real, n: nat): (f: Rotor)
  {
    if n == 0 then r
    else
      var s := Frames(r, speed, speedSwing, n - 1);
      Rotor(s.bladeRotationX - speed, s.degree + speedSwing)
  }

  /** Each frame subtracts `speed` from the blade rotation and adds
      `speed_swing` to the swing angle, so `n` frames move them by `n` times
      those amounts. */
  lemma {:induction false} FramesAccumulate(r: Rotor, speed: real, speedSwing: real, n: nat)
    ensures Frames(r, speed, speedSwing, n).bladeRotationX == r.bladeRotationX - n as real * speed
    ensures Frames(r, speed, speedSwing, n).degree == r.degree + n as real * speedSwing
  {
    if n > 0 {
      FramesAccumulate(r, speed, speedSwing, n - 1);
    }
  }

  /** While the power is off nothing turns, however many frames are drawn. */
  lemma {:induction false} PoweredOffIsStill(p: Panel, r: Rotor, n: nat)
    requires Inv(p) && !p.isPowerOn
    ensures Frames(r, p.speed, p.speedSwing, n) == r
  {
    FramesAccumulate(r, p.speed, p.speedSwing, n);
  }

  /** The scene object: its speed fields, written through the setters, and the
      two quantities its frame step accumulates. */
  class App3 {
    var speed: real
    var speedSwing: real
    var degree: real
    var bladeRotationX: real

    function Spin(): (s: Rotor)
      reads this
    {
      Rotor(bladeRotationX, degree)
    }

    constructor ()
      ensures speed == Stop && speedSwing == Stop && degree == 0.0 && bladeRotationX == 0.0
    {
      speed, speedSwing, degree, bladeRotationX := Stop, Stop, 0.0, 0.0;
    }

    method SetSpeed(s: real)
      modifies this
      ensures speed == s
      ensures speedSwing == old(speedSwing) && Spin() == old(Spin())
    {
      speed := s;
    }

    method SetSwing(s: real)
      modifies this
      ensures speedSwing == s
      ensures speed == old(speed) && Spin() == old(Spin())
    {
      speedSwing := s;
    }

    /** One frame: turn the blade and advance the swing angle. */
    method Render()
      modifies this
      ensures Spin() == Frames(old(Spin()), speed, speedSwing, 1)
      ensures speed == old(speed) && speedSwing == old(speedSwing)
    {
      bladeRotationX := bladeRotationX - speed;
      degree := degree + speedSwing;
    }
  }

  /** The page script: its two flags and the click handlers of the five buttons. */
  class ControlPanel {
    var isPowerOn: bool
    var isSwingOn: bool
    const app: App3

    function State(): Panel
      reads this, app
    {
      Panel(isPowerOn, isSwingOn, app.speed, app.speedSwing)
    }

    constructor (app: App3)
      requires app.speed == Stop && app.speedSwing == Stop
      ensures this.app == app && State() == Initial
    {
      this.app := app;
      isPowerOn, isSwingOn := false, false;
    }

    method OnPower()
      modifies this, app
      ensures State() == Press(old(State()), Power)
      ensures app.Spin() == old(app.Spin())
    {
      if !isPowerOn {
        app.SetSpeed(Speed0);
        isPowerOn := true;
      } else {
        app.SetSpeed(Stop);
        app.SetSwing(Stop);
        isPowerOn := false;
      }
    }

    method OnSwing()
      modifies this, app
      ensures State() == Press(old(State()), Swing)
      ensures app.Spin() == old(app.Spin())
    {
      if !isSwingOn && isPowerOn {
        app.SetSwing(SwingSpeed);
        isSwingOn := true;
      } else {
        app.SetSwing(Stop);
        isSwingOn := false;
      }
    }

    method OnLow()
      modifies app
      ensures State() == Press(old(State()), Low)
      ensures app.Spin() == old(app.Spin())
    {
      if isPowerOn {
        app.SetSpeed(Speed0);
      }
    }

    method OnMid()
      modifies app
      ensures State() == Press(old(State()), Mid)
      ensures app.Spin() == old(app.Spin())
    {
      if isPowerOn {
        app.SetSpeed(Speed1);
      }
    }

    method OnHigh()
      modifies app
      ensures State() == Press(old(State()), High)
      ensures app.Spin() == old(app.Spin())
    {
      if isPowerOn {
        app.SetSpeed(Speed2);
      }
    }
  }
}
