/** WHADriftControl: the PI loop from a FIFO's fill to a resample ratio, over real numbers. */
module DriftControl {

  datatype Params = Params(fillTauSec: real, kp: real, ki: real, maxPpm: real, deadband: real, engageSec: real)

  const ESTIMATE_TAU_SEC := 5.0

  datatype Loop = Loop(setpoint: real, rate: real, p: Params, ema: real, ema2: real, integ: real, ratio: real,
                       ratioAvg: real, engaged: bool, outsideSec: real)

  predicate Sound(p: Params) {
    p.fillTauSec > 0.0 && p.maxPpm >= 0.0 && p.deadband > 0.0 && p.engageSec > 0.0
  }

  function Abs(x: real): real {
    if x < 0.0 then -x else x
  }

  /** One step of an exponential average with weight a. */
  function Smoothed(x: real, target: real, a: real): real {
    x + (target - x) * a
  }

  function Weight(dt: real, tau: real): real
    requires tau > 0.0
  {
    if dt < tau then dt / tau else 1.0
  }

  function Clamp(x: real, limit: real): real {
    if x < -limit then -limit else if x > limit then limit else x
  }

  function Reset(setpoint: real, rate: real, p: Params): Loop {
    Loop(setpoint, rate, p, setpoint, setpoint, 0.0, 1.0, 1.0, false, 0.0)
  }

  function Retarget(l: Loop, setpoint: real, deadband: real): Loop {
    l.(setpoint := setpoint, p := l.p.(deadband := deadband), ema := setpoint, ema2 := setpoint)
  }

  function SetGains(l: Loop, kp: real, ki: real): Loop {
    l.(integ := if ki > 0.0 && l.p.ki > 0.0 then l.integ * (l.p.ki / ki) else l.integ, p := l.p.(kp := kp, ki := ki))
  }

  /** The fill smoothed by two stages. */
  function Watched(l: Loop, fill: real, dt: real): Loop
    requires l.p.fillTauSec > 0.0
  {
    var a := Weight(dt, l.p.fillTauSec);
    var ema := Smoothed(l.ema, fill, a);
    l.(ema := ema, ema2 := Smoothed(l.ema2, ema, a))
  }

  /** How long the smoothed error has been outside the deadband. */
  function Outside(l: Loop, dt: real): real {
    if Abs(l.ema2 - l.setpoint) < l.p.deadband then 0.0 else l.outsideSec + dt
  }

  /** The proportional and integral reaction to an error that lasts dt. */
  function Reaction(p: Params, err: real, integ: real, dt: real, rate: real): real
    requires rate > 0.0
  {
    -(p.kp * err + p.ki * (integ + err * dt)) / rate
  }

  function MaxCorrection(p: Params): real {
    p.maxPpm * 0.000001
  }

  function Integrated(integ: real, err: real, dt: real): real {
    integ + err * dt
  }

  /** The correction once engaged; the integral stands still while the correction is clamped. */
  function Corrected(l: Loop, dt: real): Loop
    requires l.rate > 0.0
  {
    var err, limit := l.ema2 - l.setpoint, MaxCorrection(l.p);
    var corr := Reaction(l.p, err, l.integ, dt, l.rate);
    var ratio := 1.0 + Clamp(corr, limit);
    l.(integ := if -limit < corr < limit then Integrated(l.integ, err, dt) else l.integ, ratio := ratio,
       ratioAvg := Smoothed(l.ratioAvg, ratio, Weight(dt, ESTIMATE_TAU_SEC)))
  }

  /** update(). */
  function Observed(l: Loop, fill: real, dt: real): Loop
    requires l.p.fillTauSec > 0.0 && l.rate > 0.0
  {
    var w := Watched(l, fill, dt);
    if l.engaged then Corrected(w, dt)
    else
      var o := w.(outsideSec := Outside(w, dt));
      if o.outsideSec < l.p.engageSec then o else Corrected(o.(engaged := true), dt)
  }

  // ---------------------------------------------------------------- equal clocks

  /** Not engaged, no correction, and both smoothing stages within the deadband. */
  ghost predicate Quiet(l: Loop) {
    && !l.engaged && l.ratio == 1.0 && l.ratioAvg == 1.0 && l.outsideSec == 0.0
    && Abs(l.ema - l.setpoint) < l.p.deadband && Abs(l.ema2 - l.setpoint) < l.p.deadband
  }

  /** A weighted mean of two values within d of c is within d of c. */
  lemma SmoothedStays(x: real, target: real, a: real, c: real, d: real)
    requires 0.0 <= a <= 1.0 && Abs(x - c) < d && Abs(target - c) < d
    ensures Abs(Smoothed(x, target, a) - c) < d
  {
    var w := target - x;
    if w >= 0.0 {
      ScaleLess(w, a);
    } else {
      ScaleLess(-w, a);
      assert -w * a == -(w * a);
    }
    Within(x - c, w * a, w, d);
  }

  lemma Within(u: real, part: real, w: real, d: real)
    requires Abs(u) < d && Abs(u + w) < d && (0.0 <= part <= w || w <= part <= 0.0)
    ensures Abs(u + part) < d
  {
  }

  lemma ScaleLess(w: real, a: real)
    requires w >= 0.0 && 0.0 <= a <= 1.0
    ensures 0.0 <= w * a <= w
  {
  }

  lemma WeightIsFraction(dt: real, tau: real)
    requires tau > 0.0 && dt >= 0.0
    ensures 0.0 <= Weight(dt, tau) <= 1.0
  {
    if dt < tau {
      var q := dt / tau;
      assert q * tau == dt;
      if q < 0.0 { ScaleNegative(q, tau); }
      if q > 1.0 { ScaleMore(q, tau); }
    }
  }

  lemma ScaleNegative(q: real, d: real)
    requires q < 0.0 && d > 0.0
    ensures q * d < 0.0
  {
  }

  lemma ScaleMore(q: real, d: real)
    requires q > 1.0 && d > 0.0
    ensures q * d > d
  {
  }

  lemma FillInsideStaysQuiet(l: Loop, fill: real, dt: real)
    requires Sound(l.p) && l.rate > 0.0 && Quiet(l) && dt >= 0.0 && Abs(fill - l.setpoint) < l.p.deadband
    ensures Quiet(Observed(l, fill, dt))
    ensures Observed(l, fill, dt).setpoint == l.setpoint && Observed(l, fill, dt).p == l.p
    ensures Observed(l, fill, dt).rate == l.rate
  {
    var a := Weight(dt, l.p.fillTauSec);
    WeightIsFraction(dt, l.p.fillTauSec);
    SmoothedStays(l.ema, fill, a, l.setpoint, l.p.deadband);
    SmoothedStays(l.ema2, Smoothed(l.ema, fill, a), a, l.setpoint, l.p.deadband);
  }

  /** One observation of a fill, dt seconds after the previous one. */
  datatype Fill = Fill(fill: real, dt: real)

  function After(l: Loop, fills: seq<Fill>): (r: Loop)
    requires l.p.fillTauSec > 0.0 && l.rate > 0.0
    ensures r.p == l.p && r.rate == l.rate && r.setpoint == l.setpoint
    decreases |fills|
  {
    if fills == [] then l
    else
      var last := fills[|fills| - 1];
      Observed(After(l, fills[..|fills| - 1]), last.fill, last.dt)
  }

  /** While every fill lies within the deadband of the setpoint the loop never engages and the ratio stays exactly 1. */
  lemma {:induction false} NeverEngages(setpoint: real, rate: real, p: Params, fills: seq<Fill>)
    requires Sound(p) && rate > 0.0
    requires forall k :: 0 <= k < |fills| ==> fills[k].dt >= 0.0 && Abs(fills[k].fill - setpoint) < p.deadband
    ensures Quiet(After(Reset(setpoint, rate, p), fills))
    decreases |fills|
  {
    if fills != [] {
      var before, last := fills[..|fills| - 1], fills[|fills| - 1];
      NeverEngages(setpoint, rate, p, before);
      FillInsideStaysQuiet(After(Reset(setpoint, rate, p), before), last.fill, last.dt);
    }
  }

  // ---------------------------------------------------------------- engaging and correcting

  function Total(fills: seq<Fill>): real
    decreases |fills|
  {
    if fills == [] then 0.0 else Total(fills[..|fills| - 1]) + fills[|fills| - 1].dt
  }

  /** The smoothed error was outside the deadband at every observation from number i on. */
  ghost predicate OutsideFrom(l: Loop, fills: seq<Fill>, i: nat)
    requires l.p.fillTauSec > 0.0 && l.rate > 0.0
  {
    forall k :: i <= k < |fills| ==> IsOutside(l, fills, k)
  }

  ghost predicate IsOutside(l: Loop, fills: seq<Fill>, k: nat)
    requires k < |fills| && l.p.fillTauSec > 0.0 && l.rate > 0.0
  {
    Abs(After(l, fills[..k + 1]).ema2 - l.setpoint) >= l.p.deadband
  }

  /** While not engaged, `outsideSec` is the length of the unbroken row of observations outside. */
  lemma {:induction false} OutsideIsUnbroken(l: Loop, fills: seq<Fill>) returns (i: nat)
    requires l.p.fillTauSec > 0.0 && l.rate > 0.0 && !l.engaged && l.outsideSec == 0.0
    requires fills == [] || !After(l, fills[..|fills| - 1]).engaged
    ensures i <= |fills| && OutsideFrom(l, fills, i) && After(l, fills).outsideSec == Total(fills[i..])
    decreases |fills|
  {
    i := |fills|;
    if fills != [] {
      var n := |fills| - 1;
      var before := fills[..n];
      if before != [] {
        StaysEngaged(l, before[..n - 1], before[n - 1..]);
        assert before[..n - 1] + before[n - 1..] == before;
      }
      var j := OutsideIsUnbroken(l, before);
      assert fills[..n + 1] == fills;
      if IsOutside(l, fills, n) {
        i := j;
        assert fills[i..][..|fills[i..]| - 1] == before[i..];
        OutsideExtends(l, fills, i);
      }
    }
  }

  lemma OutsideExtends(l: Loop, fills: seq<Fill>, i: nat)
    requires l.p.fillTauSec > 0.0 && l.rate > 0.0 && fills != []
    requires OutsideFrom(l, fills[..|fills| - 1], i) && IsOutside(l, fills, |fills| - 1)
    ensures OutsideFrom(l, fills, i)
  {
    var before := fills[..|fills| - 1];
    forall k: nat | i <= k < |before| ensures IsOutside(l, fills, k) {
      assert IsOutside(l, before, k) && fills[..k + 1] == before[..k + 1];
    }
  }

  /** Once engaged, always engaged, whatever is observed later. */
  lemma {:induction false} StaysEngaged(l: Loop, fills: seq<Fill>, more: seq<Fill>)
    requires l.p.fillTauSec > 0.0 && l.rate > 0.0
    ensures After(l, fills).engaged ==> After(l, fills + more).engaged
    decreases |more|
  {
    if more == [] {
      assert fills + more == fills;
    } else {
      var n := |more| - 1;
      StaysEngaged(l, fills, more[..n]);
      assert (fills + more)[..|fills + more| - 1] == fills + more[..n];
    }
  }

  /** The loop engages only after the smoothed error was outside the deadband for engageSec without a break. */
  lemma EngagingIsEarned(l: Loop, fills: seq<Fill>) returns (i: nat)
    requires l.p.fillTauSec > 0.0 && l.rate > 0.0 && !l.engaged && l.outsideSec == 0.0
    requires fills != [] && !After(l, fills[..|fills| - 1]).engaged && After(l, fills).engaged
    ensures i <= |fills| && OutsideFrom(l, fills, i) && Total(fills[i..]) >= l.p.engageSec
  {
    i := OutsideIsUnbroken(l, fills);
  }

  /** The ratio never leaves 1 +- maxPpm. */
  lemma {:induction false} RatioBounded(setpoint: real, rate: real, p: Params, fills: seq<Fill>)
    requires Sound(p) && rate > 0.0
    ensures Abs(After(Reset(setpoint, rate, p), fills).ratio - 1.0) <= MaxCorrection(p)
    decreases |fills|
  {
    if fills != [] {
      RatioBounded(setpoint, rate, p, fills[..|fills| - 1]);
      var last := fills[|fills| - 1];
      ObservedBounded(After(Reset(setpoint, rate, p), fills[..|fills| - 1]), last.fill, last.dt);
    }
  }

  lemma ObservedBounded(l: Loop, fill: real, dt: real)
    requires Sound(l.p) && l.rate > 0.0 && Abs(l.ratio - 1.0) <= MaxCorrection(l.p)
    ensures Abs(Observed(l, fill, dt).ratio - 1.0) <= MaxCorrection(l.p)
  {
  }

  // ---------------------------------------------------------------- the class

  class Controller {
    var p: Params
    var setpoint: real
    var rate: real
    var ema: real
    var ema2: real
    var integ: real
    var ratio: real
    var ratioAvg: real
    var engaged: bool
    var outsideSec: real

    /** The state as a value. */
    ghost function State(): Loop
      reads this
    {
      Loop(setpoint, rate, p, ema, ema2, integ, ratio, ratioAvg, engaged, outsideSec)
    }

    constructor (setpoint: real, rate: real, params: Params)
      ensures State() == Reset(setpoint, rate, params)
    {
      this.setpoint, this.rate, p := setpoint, rate, params;
      ema, ema2, integ, ratio, ratioAvg, engaged, outsideSec := setpoint, setpoint, 0.0, 1.0, 1.0, false, 0.0;
    }

    /** update(). */
    method Update(fill: real, dt: real) returns (r: real)
      requires p.fillTauSec > 0.0 && rate > 0.0
      modifies this
      ensures State() == Observed(old(State()), fill, dt) && r == ratio
    {
      var a := Weight(dt, p.fillTauSec);
      ema := Smoothed(ema, fill, a);
      ema2 := Smoothed(ema2, ema, a);
      var err := ema2 - setpoint;
      if !engaged {
        outsideSec := if Abs(err) < p.deadband then 0.0 else outsideSec + dt;
        if outsideSec < p.engageSec { return ratio; }
        engaged := true;
      }
      var maxCorr := MaxCorrection(p);
      var corr := Reaction(p, err, integ, dt, rate);
      if -maxCorr < corr < maxCorr { integ := Integrated(integ, err, dt); }
      corr := Clamp(corr, maxCorr);
      ratio := 1.0 + corr;
      ratioAvg := Smoothed(ratioAvg, ratio, Weight(dt, ESTIMATE_TAU_SEC));
      r := ratio;
    }

    /** retarget(): the drift estimate and engagement stay. */
    method SetTarget(newSetpoint: real, deadband: real)
      modifies this
      ensures State() == Retarget(old(State()), newSetpoint, deadband)
    {
      setpoint := newSetpoint;
      p := p.(deadband := deadband);
      ema, ema2 := newSetpoint, newSetpoint;
    }

    /** setGains(). */
    method ChangeGains(kp: real, ki: real)
      modifies this
      ensures State() == SetGains(old(State()), kp, ki)
    {
      if ki > 0.0 && p.ki > 0.0 { integ := integ * (p.ki / ki); }
      p := p.(kp := kp, ki := ki);
    }
  }

  /** A new target or new gains never end the quiet, and new gains keep the integral's share of the correction. */
  lemma RetargetStaysQuiet(l: Loop, setpoint: real, deadband: real, kp: real, ki: real)
    requires Quiet(l) && deadband > 0.0
    ensures Quiet(Retarget(l, setpoint, deadband)) && Quiet(SetGains(l, kp, ki))
    ensures ki > 0.0 && l.p.ki > 0.0 ==> ki * SetGains(l, kp, ki).integ == l.p.ki * l.integ
  {
    if ki > 0.0 {
      var q := l.p.ki / ki;
      assert q * ki == l.p.ki;
      assert ki * (l.integ * q) == q * ki * l.integ;
    }
  }
}
