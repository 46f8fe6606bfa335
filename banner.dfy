/**
 * The hero banner's two animations: the count-up counters, started once when
 * they scroll into view and advanced one animation frame at a time, and the
 * particle field, moved and bounced off the canvas edges every frame.
 * The host's frame scheduler and viewport observer are replaced by explicit
 * calls to `Tick`, `OnIntersect` and `Step`.
 */
module Banner {

  import opened JsMath
  import opened Wrappers

  // ---------- counters ----------

  /** A counter settles within this many frames, whatever its target (`SettleWithinFrames`). */
  const CounterFrames: nat := 120
  const FramesToTarget: real := CounterFrames as real

  /** One entry of the static counter table. */
  datatype CounterSpec = CounterSpec(caption: string, target: real, suffix: Option<string>)

  const Counters: seq<CounterSpec> := [
    CounterSpec("Aktif Restoran", 500.0, None),
    CounterSpec("% Maliyet Azalması", 65.0, Some("%")),
    CounterSpec("Ay Geri Ödeme", 8.0, None),
    CounterSpec("% Müşteri Memnuniyeti", 98.0, Some("%"))]

  /** `Math.max(1, target / 120)`: never below one, so every tick makes progress. */
  function CounterStep(target: real): (step: real)
    ensures step >= 1.0
    ensures step >= target / FramesToTarget
    ensures step == 1.0 || step == target / FramesToTarget
  {
    Max(1.0, target / FramesToTarget)
  }

  /** The running value after `k` ticks. */
  function ValueAfter(target: real, k: nat): real
  {
    k as real * CounterStep(target)
  }

  lemma ValueAfterMonotone(target: real, i: nat, j: nat)
    requires i <= j
    ensures ValueAfter(target, i) <= ValueAfter(target, j)
  {
    var step := CounterStep(target);
    assert (j - i) as real * step >= 0.0;
    assert j as real * step == i as real * step + (j - i) as real * step;
  }

  /** The tick on which the counter settles: the first whose running value reaches the target. */
  function SettleTick(target: real): (k: nat)
    ensures k >= 1
    ensures ValueAfter(target, k) >= target
    ensures forall j: nat :: 1 <= j < k ==> ValueAfter(target, j) < target
  {
    var step := CounterStep(target);
    if target <= step then
      assert ValueAfter(target, 1) == step;
      1
    else
      var q := target / step;
      assert q * step == target;
      var k := Ceil(q);
      assert k >= 2;
      assert ValueAfter(target, k) >= target by {
        assert (k as real - q) * step >= 0.0;
      }
      assert forall j: nat :: 1 <= j < k ==> ValueAfter(target, j) < target by {
        forall j: nat | 1 <= j < k ensures ValueAfter(target, j) < target {
          assert j as real < q;
          assert (q - j as real) * step > 0.0;
        }
      }
      k
  }

  /** What the counter shows after `k` ticks: 0 before the first, the floor of
      the running value while below the target, the rounded target from then on. */
  function Shown(target: real, k: nat): int
  {
    if k == 0 then 0
    else if ValueAfter(target, k) >= target then Round(target)
    else Floor(ValueAfter(target, k))
  }

  /** Because the step is at least one, a counter settles within ⌈target⌉ ticks (one for a target up to 1). */
  lemma SettleBound(target: real)
    ensures SettleTick(target) <= MaxInt(1, Ceil(target))
  {
    var step := CounterStep(target);
    if target > step {
      var q := target / step;
      assert q <= target by {
        assert q * step == target;
        assert q > 0.0;
        MulNonNegative(q, step - 1.0);
      }
      CeilMonotone(q, target);
    }
  }

  /** One more tick adds one step, and reaches the target exactly on the settle tick. */
  lemma NextTick(target: real, k: nat)
    requires k < SettleTick(target)
    ensures ValueAfter(target, k + 1) == ValueAfter(target, k) + CounterStep(target)
    ensures ValueAfter(target, k + 1) >= target <==> k + 1 == SettleTick(target)
  {
  }

  /** Every counter settles within 120 ticks, and one whose target is at least 120
      takes exactly 120: the step grows with the target. */
  lemma SettleWithinFrames(target: real)
    ensures SettleTick(target) <= CounterFrames
    ensures target >= FramesToTarget ==> SettleTick(target) == CounterFrames
  {
    var step := CounterStep(target);
    if target >= FramesToTarget {
      assert step == target / FramesToTarget;
      var q := target / step;
      assert q == FramesToTarget by {
        assert q * step == target;
        assert FramesToTarget * step == target;
      }
    } else if target > step {
      var q := target / step;
      assert q <= target by {
        assert q * step == target;
        assert q > 0.0;
        MulNonNegative(q, step - 1.0);
      }
      CeilMonotone(q, FramesToTarget);
    }
  }

  /** Before it settles a counter shows the floor of its running value, which is below the target. */
  lemma ShownBeforeSettle(target: real, k: nat)
    requires 1 <= k < SettleTick(target)
    ensures Shown(target, k) == Floor(ValueAfter(target, k))
    ensures Shown(target, k) >= 1
    ensures (Shown(target, k) as real) < target
  {
    assert ValueAfter(target, k) >= 1.0 by {
      ValueAfterMonotone(target, 1, k);
    }
  }

  /** The tick that settles the counter shows exactly the rounded target. */
  lemma ShownAtSettle(target: real)
    ensures Shown(target, SettleTick(target)) == Round(target)
  {
  }

  /** For a non-negative target the display never goes down, including at the settle. */
  lemma ShownMonotone(target: real, i: nat, j: nat)
    requires target >= 0.0
    requires i <= j
    ensures Shown(target, i) <= Shown(target, j)
  {
    if i == 0 {
      if j > 0 && ValueAfter(target, j) < target {
        assert ValueAfter(target, j) >= 0.0;
      }
    } else {
      ValueAfterMonotone(target, i, j);
      var vi, vj := ValueAfter(target, i), ValueAfter(target, j);
      if vj < target {
        FloorMonotone(vi, vj);
      } else if vi < target {
        FloorBelowRound(vi, target);
      }
    }
  }

  /** A target of 0 (also what a missing `data-target` gives) settles on the first tick showing 0. */
  lemma ZeroTarget()
    ensures SettleTick(0.0) == 1 && Shown(0.0, 1) == 0
  {
  }

  /** A negative target settles on the first tick, dropping the display from 0 to its rounded value. */
  lemma NegativeTargetDrops()
    ensures SettleTick(-5.0) == 1 && Shown(-5.0, 0) == 0 && Shown(-5.0, 1) == -5
  {
    RoundUnique(-5.0, -5);
  }

  /** The final display is the rounded target, which can be above a fractional target. */
  lemma FractionalOvershoot()
    ensures SettleTick(2.5) == 3 && Shown(2.5, 3) == 3
  {
    assert ValueAfter(2.5, 2) < 2.5;
    RoundUnique(2.5, 3);
  }

  /** The four counters of the banner settle after 120, 65, 8 and 98 ticks on their own targets. */
  lemma ShippedCounters()
    ensures SettleTick(Counters[0].target) == 120 && Shown(500.0, 120) == 500
    ensures SettleTick(Counters[1].target) == 65 && Shown(65.0, 65) == 65
    ensures SettleTick(Counters[2].target) == 8 && Shown(8.0, 8) == 8
    ensures SettleTick(Counters[3].target) == 98 && Shown(98.0, 98) == 98
  {
    RoundUnique(500.0, 500);
    RoundUnique(65.0, 65);
    RoundUnique(8.0, 8);
    RoundUnique(98.0, 98);
    assert CounterStep(65.0) == 1.0 && CounterStep(8.0) == 1.0 && CounterStep(98.0) == 1.0;
  }

  /** `Number(el.dataset.target || '0')` for a missing attribute or a number. */
  function TargetOf(attribute: Option<real>): real
  {
    match attribute
    case None => 0.0
    case Some(t) => t
  }

  /** One `[data-counter]` element together with the state its `tick` closure captures. */
  class Counter {
    const target: real
    var animated: bool   // `el.dataset.animated === 'true'`
    var pending: bool    // a `tick` is scheduled for the next frame
    var value: real      // the closure's running value
    var step: real
    var display: int     // `el.innerText`
    ghost var ticks: nat // ticks run so far

    ghost predicate Valid()
      reads this
    {
      && (!animated ==> !pending && ticks == 0 && value == 0.0)
      && (animated ==> step == CounterStep(target) && value == ValueAfter(target, ticks))
      && ticks <= SettleTick(target)
      && (animated ==> (pending <==> ticks < SettleTick(target)))
      && display == Shown(target, ticks)
    }

    /** The element as rendered: showing 0, not yet animated. */
    constructor (attribute: Option<real>)
      ensures Valid()
      ensures target == TargetOf(attribute)
      ensures !animated && !pending && display == 0
    {
      target := TargetOf(attribute);
      animated := false;
      pending := false;
      value := 0.0;
      step := 1.0;
      display := 0;
      ticks := 0;
    }

    /** The observer callback for one entry about this element. */
    method OnIntersect(isIntersecting: bool)
      requires Valid()
      modifies this
      ensures Valid()
      ensures !isIntersecting || old(animated) ==> unchanged(this)
      ensures isIntersecting && !old(animated) ==> pending && ticks == 0 && display == 0
      ensures animated <==> old(animated) || isIntersecting
    {
      if !isIntersecting {
        return;
      }
      if animated {
        return;
      }
      animated := true;
      value := 0.0;
      step := CounterStep(target);
      pending := true;
    }

    /** One scheduled `tick`. */
    method Tick()
      requires Valid() && pending
      modifies this
      ensures Valid()
      ensures animated
      ensures ticks == old(ticks) + 1
      ensures display == Shown(target, ticks)
      ensures pending ==> (display as real) < target
      ensures !pending ==> display == Round(target)
      ensures target >= 0.0 ==> old(display) <= display
    {
      NextTick(target, ticks);
      value := value + step;
      ticks := ticks + 1;
      if value >= target {
        display := Round(target);
        pending := false;
      } else {
        display := Floor(value);
        ShownBeforeSettle(target, ticks);
      }
      if target >= 0.0 {
        ShownMonotone(target, ticks - 1, ticks);
      }
    }
  }

  /** The frame scheduler running a started counter until it stops rescheduling;
      returns the number of frames it took. */
  method RunCounter(c: Counter) returns (frames: nat)
    requires c.Valid() && c.pending && c.ticks == 0
    modifies c
    ensures c.Valid() && !c.pending
    ensures c.display == Round(c.target)
    ensures frames == SettleTick(c.target) <= MaxInt(1, Ceil(c.target))
    ensures frames <= CounterFrames
    ensures c.target >= FramesToTarget ==> frames == CounterFrames
  {
    frames := 0;
    while c.pending
      invariant c.Valid() && c.animated
      invariant frames == c.ticks
      decreases SettleTick(c.target) - c.ticks
    {
      c.Tick();
      frames := frames + 1;
    }
    SettleBound(c.target);
    SettleWithinFrames(c.target);
  }

  /** The elements a batch of observer entries names. */
  ghost function Targets(entries: seq<(Counter, bool)>): set<Counter>
  {
    set e | e in entries :: e.0
  }

  /** The observer callback: every entry in order; an element is started by its
      first intersecting entry, and nothing else restarts it. */
  method OnIntersections(entries: seq<(Counter, bool)>)
    requires forall e :: e in entries ==> e.0.Valid()
    modifies Targets(entries)
    ensures forall e :: e in entries ==> e.0.Valid()
    ensures forall e :: e in entries ==> (e.0.animated <==> old(e.0.animated) || (e.0, true) in entries)
    ensures forall e :: e in entries && old(e.0.animated) ==> unchanged(e.0)
    ensures forall e :: e in entries && (e.0, true) !in entries ==> unchanged(e.0)
    ensures forall e :: e in entries && !old(e.0.animated) && (e.0, true) in entries ==>
              e.0.pending && e.0.ticks == 0 && e.0.display == 0
  {
    var i := 0;
    while i < |entries|
      invariant 0 <= i <= |entries|
      invariant forall e :: e in entries ==> e.0.Valid()
      invariant forall e :: e in entries ==>
                  (e.0.animated <==> old(e.0.animated) || (e.0, true) in entries[..i])
      invariant forall e :: e in entries && old(e.0.animated) ==> unchanged(e.0)
      invariant forall e :: e in entries && (e.0, true) !in entries[..i] ==> unchanged(e.0)
      invariant forall e :: e in entries && !old(e.0.animated) && (e.0, true) in entries[..i] ==>
                  e.0.pending && e.0.ticks == 0 && e.0.display == 0
    {
      var c, b := entries[i].0, entries[i].1;
      c.OnIntersect(b);
      assert entries[..i + 1] == entries[..i] + [entries[i]];
      i := i + 1;
    }
    assert entries[..i] == entries;
  }

  // ---------- particles ----------

  /** The canvas is never shorter than this. */
  const MinCanvasHeight: int := 540
  /** How many particles the field holds. */
  const ParticleCount: nat := 50

  datatype Particle = Particle(x: real, y: real, r: real, vx: real, vy: real, a: real)

  /** `canvas.height = Math.max(540, innerHeight * 0.9)`; the integer canvas attribute truncates. */
  function CanvasHeight(innerHeight: nat): (h: int)
    ensures h >= MinCanvasHeight
    ensures h as real <= Max(MinCanvasHeight as real, innerHeight as real * 0.9) < h as real + 1.0
  {
    Floor(Max(MinCanvasHeight as real, innerHeight as real * 0.9))
  }

  /** A particle as spawned: inside the canvas (at x = 0 when the window has no
      width, since `Math.random() * 0` is 0), radius in [1, 4), speed below 0.25
      per axis, opacity in [0.2, 0.8). */
  predicate Spawned(p: Particle, width: int, height: int)
  {
    && 0.0 <= p.x && (p.x < width as real || p.x == 0.0) && 0.0 <= p.y < height as real
    && 1.0 <= p.r < 4.0 && -0.25 <= p.vx < 0.25 && -0.25 <= p.vy < 0.25
    && 0.2 <= p.a < 0.8
  }

  /** One axis of a frame: move by the velocity, then reverse it if outside [0, bound]. */
  function AxisStep(pos: real, v: real, bound: real): (real, real)
  {
    var next := pos + v;
    (next, if next < 0.0 || next > bound then -v else v)
  }

  /** The update `draw` applies to one particle. */
  function Advance(p: Particle, width: int, height: int): Particle
  {
    var (x, vx) := AxisStep(p.x, p.vx, width as real);
    var (y, vy) := AxisStep(p.y, p.vy, height as real);
    p.(x := x, y := y, vx := vx, vy := vy)
  }

  /** One frame over the whole field. */
  function StepAll(ps: seq<Particle>, width: int, height: int): (qs: seq<Particle>)
    ensures |qs| == |ps|
  {
    seq(|ps|, i requires 0 <= i < |ps| => Advance(ps[i], width, height))
  }

  /** A frame moves each particle by its velocity, reverses a velocity component
      exactly when the new coordinate leaves [0, bound] on that axis, and so keeps
      each speed and the radius and opacity. */
  lemma AdvanceBounces(p: Particle, width: int, height: int)
    ensures var q := Advance(p, width, height);
            && q.x == p.x + p.vx && q.y == p.y + p.vy
            && Abs(q.vx) == Abs(p.vx) && Abs(q.vy) == Abs(p.vy)
            && (p.vx != 0.0 ==> (q.vx == -p.vx <==> q.x < 0.0 || q.x > width as real))
            && (p.vy != 0.0 ==> (q.vy == -p.vy <==> q.y < 0.0 || q.y > height as real))
            && q.r == p.r && q.a == p.a
  {
  }

  /** On one axis: inside the bounds, or one step back inside them. */
  predicate Near(pos: real, v: real, bound: real)
  {
    (0.0 <= pos <= bound) || (0.0 <= pos + v <= bound)
  }

  predicate InFlight(p: Particle, width: int, height: int)
  {
    Near(p.x, p.vx, width as real) && Near(p.y, p.vy, height as real)
  }

  lemma NearStep(pos: real, v: real, bound: real)
    requires bound >= 0.0 && Near(pos, v, bound)
    ensures Near(AxisStep(pos, v, bound).0, AxisStep(pos, v, bound).1, bound)
  {
  }

  /** While the canvas keeps its size, a particle that is near the canvas stays near it. */
  lemma AdvanceKeepsInFlight(p: Particle, width: int, height: int)
    requires InFlight(p, width, height)
    ensures InFlight(Advance(p, width, height), width, height)
  {
    NearStep(p.x, p.vx, width as real);
    NearStep(p.y, p.vy, height as real);
  }

  /** A particle near the canvas is never further outside it than its speed on that axis. */
  lemma InFlightBounds(p: Particle, width: int, height: int)
    requires InFlight(p, width, height)
    ensures -Abs(p.vx) <= p.x <= width as real + Abs(p.vx)
    ensures -Abs(p.vy) <= p.y <= height as real + Abs(p.vy)
  {
  }

  lemma SpawnedInFlight(p: Particle, width: int, height: int)
    requires width >= 0
    requires Spawned(p, width, height)
    ensures InFlight(p, width, height)
  {
  }

  /** A window with no width still spawns particles, all on the left edge. */
  lemma ZeroWidthSpawn(innerHeight: nat)
    ensures Spawned(Particle(0.0, 0.0, 1.0, 0.0, 0.0, 0.2), 0, CanvasHeight(innerHeight))
    ensures InFlight(Particle(0.0, 0.0, 1.0, 0.0, 0.0, 0.2), 0, CanvasHeight(innerHeight))
  {
    SpawnedInFlight(Particle(0.0, 0.0, 1.0, 0.0, 0.0, 0.2), 0, CanvasHeight(innerHeight));
  }

  /** `n` frames of one axis with a fixed bound. */
  function AxisIterate(pos: real, v: real, bound: real, n: nat): (real, real)
    decreases n
  {
    if n == 0 then (pos, v)
    else
      var (pos', v') := AxisStep(pos, v, bound);
      AxisIterate(pos', v', bound, n - 1)
  }

  /** A coordinate further beyond the far edge than its speed (possible after the
      canvas shrinks on resize) is reversed on every frame and never comes back:
      after two frames it is exactly where it began. */
  lemma StrandedOscillates(pos: real, v: real, bound: real)
    requires pos > bound + Abs(v)
    ensures AxisStep(pos, v, bound).0 > bound
    ensures AxisStep(AxisStep(pos, v, bound).0, AxisStep(pos, v, bound).1, bound) == (pos, v)
  {
  }

  lemma {:induction false} StrandedForever(pos: real, v: real, bound: real, n: nat)
    requires pos > bound + Abs(v)
    ensures AxisIterate(pos, v, bound, n).0 > bound
  {
    StrandedOscillates(pos, v, bound);
    if n >= 2 {
      var (p1, v1) := AxisStep(pos, v, bound);
      assert AxisIterate(pos, v, bound, n) == AxisIterate(p1, v1, bound, n - 1);
      assert AxisIterate(p1, v1, bound, n - 1) == AxisIterate(pos, v, bound, n - 2);
      StrandedForever(pos, v, bound, n - 2);
    }
  }

  /** The canvas and its particles. */
  class ParticleField {
    var width: int
    var height: int
    const particles: array<Particle>

    /** Every particle is near the canvas. */
    ghost predicate AllInFlight()
      reads this, particles
    {
      forall i :: 0 <= i < particles.Length ==> InFlight(particles[i], width, height)
    }

    /** `setSize()` and the particles spawned from `Math.random`, given as `initial`. */
    constructor (initial: seq<Particle>, innerWidth: nat, innerHeight: nat)
      requires |initial| == ParticleCount
      requires forall p :: p in initial ==> Spawned(p, innerWidth, CanvasHeight(innerHeight))
      ensures fresh(particles) && particles[..] == initial
      ensures width == innerWidth && height == CanvasHeight(innerHeight)
      ensures AllInFlight()
    {
      width := innerWidth;
      height := CanvasHeight(innerHeight);
      particles := new Particle[|initial|](i requires 0 <= i < |initial| => initial[i]);
      new;
      forall i | 0 <= i < particles.Length ensures InFlight(particles[i], width, height) {
        assert particles[i] in initial;
        SpawnedInFlight(particles[i], width, height);
      }
    }

    /** `setSize()` on resize; positions are left where they are. */
    method Resize(innerWidth: nat, innerHeight: nat)
      modifies this
      ensures width == innerWidth && height == CanvasHeight(innerHeight)
    {
      width := innerWidth;
      height := CanvasHeight(innerHeight);
    }

    /** The particle loop of one `draw` frame, updating the array in place. */
    method Step()
      modifies particles
      ensures particles[..] == StepAll(old(particles[..]), width, height)
      ensures old(AllInFlight()) ==> AllInFlight()
    {
      var i := 0;
      while i < particles.Length
        invariant 0 <= i <= particles.Length
        invariant forall k :: 0 <= k < i ==> particles[k] == Advance(old(particles[k]), width, height)
        invariant forall k :: i <= k < particles.Length ==> particles[k] == old(particles[k])
      {
        var p := particles[i];
        var x, y := p.x + p.vx, p.y + p.vy;
        var vx, vy := p.vx, p.vy;
        if x < 0.0 || x > width as real {
          vx := -vx;
        }
        if y < 0.0 || y > height as real {
          vy := -vy;
        }
        particles[i] := p.(x := x, y := y, vx := vx, vy := vy);
        i := i + 1;
      }
      if old(AllInFlight()) {
        forall k | 0 <= k < particles.Length ensures InFlight(particles[k], width, height) {
          AdvanceKeepsInFlight(old(particles[k]), width, height);
        }
      }
    }
  }
}
