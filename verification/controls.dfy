/** counter_strike/controls.py: `aim` and `shoot` as the sequences of desktop
    commands they issue. */
module Controls {
  import opened Py

  /** A desktop call: `move_mouse(x=…, y=…)`, `left_click()` or `wait(ms)`. */
  datatype Command = MoveMouse(x: int, y: int) | LeftClick | Wait(ms: int)

  /** Milliseconds between the clicks of a burst. */
  const ClickPause: int := 200

  /** The default number of bursts `shoot` fires. */
  const DefaultBursts: int := 3

  /** One pass of the `shoot` loop. */
  const Burst: seq<Command> := [LeftClick, Wait(ClickPause), LeftClick, Wait(ClickPause), LeftClick]

  /** `aim(mouse_movements)`: one mouse move per movement, in list order. */
  function Aim(movements: seq<Point>): (trace: seq<Command>)
    ensures |trace| == |movements|
    ensures forall i :: 0 <= i < |movements| ==>
              trace[i] == MoveMouse(movements[i].x, movements[i].y)
  {
    if movements == [] then []
    else Aim(movements[..|movements| - 1]) + [MoveMouse(movements[|movements| - 1].x, movements[|movements| - 1].y)]
  }

  /** The number of passes of `for i in range(clicks)`. */
  function Passes(clicks: int): nat {
    if clicks <= 0 then 0 else clicks
  }

  /** `shoot(clicks)`: every five commands form one burst, and there is one
      burst per pass of `range(clicks)`. */
  function Shoot(clicks: int): (trace: seq<Command>)
    ensures |trace| == 5 * Passes(clicks)
    ensures forall i :: 0 <= i < |trace| ==> trace[i] == Burst[i % 5]
    decreases Passes(clicks)
  {
    if clicks <= 0 then []
    else
      var previous := Shoot(clicks - 1);
      var trace := previous + Burst;
      assert forall i :: |previous| <= i < |trace| ==> trace[i] == Burst[i - |previous|] == Burst[i % 5];
      trace
  }

  /** The positions of `trace` from which the mouse was moved. */
  function Movements(trace: seq<Command>): (movements: seq<Point>)
    ensures |movements| <= |trace|
  {
    if trace == [] then []
    else
      var rest := Movements(trace[..|trace| - 1]);
      match trace[|trace| - 1]
      case MoveMouse(x, y) => rest + [Point(x, y)]
      case _ => rest
  }

  /** Reading the moves back out of `aim`'s trace gives the movements. */
  lemma {:induction false} AimRoundTrip(movements: seq<Point>)
    ensures Movements(Aim(movements)) == movements
  {
    if movements != [] {
      var init := movements[..|movements| - 1];
      AimRoundTrip(init);
      assert Aim(movements)[..|movements| - 1] == Aim(init);
      assert movements == init + [movements[|movements| - 1]];
    }
  }

  /** How many commands of `trace` are `c`. */
  function Count(trace: seq<Command>, c: Command): nat {
    if trace == [] then 0
    else Count(trace[..|trace| - 1], c) + (if trace[|trace| - 1] == c then 1 else 0)
  }

  lemma {:induction false} CountSplits(a: seq<Command>, b: seq<Command>, c: Command)
    ensures Count(a + b, c) == Count(a, c) + Count(b, c)
    decreases |b|
  {
    if b == [] {
      assert a + b == a;
    } else {
      assert (a + b)[..|a + b| - 1] == a + b[..|b| - 1];
      CountSplits(a, b[..|b| - 1], c);
    }
  }

  lemma BurstCounts()
    ensures Count(Burst, LeftClick) == 3 && Count(Burst, Wait(ClickPause)) == 2
  {
    var b4, b3, b2, b1 := Burst[..4], Burst[..3], Burst[..2], Burst[..1];
    assert b4[..3] == b3 && b3[..2] == b2 && b2[..1] == b1 && b1[..0] == [];
    assert Count(b1, LeftClick) == 1 && Count(b1, Wait(ClickPause)) == 0;
    assert Count(b2, LeftClick) == 1 && Count(b2, Wait(ClickPause)) == 1;
    assert Count(b3, LeftClick) == 2 && Count(b3, Wait(ClickPause)) == 1;
    assert Count(b4, LeftClick) == 2 && Count(b4, Wait(ClickPause)) == 2;
  }

  /** `shoot(clicks)` clicks three times and pauses twice per pass, and
      issues nothing else. */
  lemma {:induction false} ShootCounts(clicks: int)
    ensures Count(Shoot(clicks), LeftClick) == 3 * Passes(clicks)
    ensures Count(Shoot(clicks), Wait(ClickPause)) == 2 * Passes(clicks)
    ensures forall i :: 0 <= i < |Shoot(clicks)| ==> Shoot(clicks)[i] in {LeftClick, Wait(ClickPause)}
    decreases Passes(clicks)
  {
    if clicks > 0 {
      ShootCounts(clicks - 1);
      CountSplits(Shoot(clicks - 1), Burst, LeftClick);
      CountSplits(Shoot(clicks - 1), Burst, Wait(ClickPause));
      BurstCounts();
      assert Shoot(clicks) == Shoot(clicks - 1) + Burst;
    }
  }

  /** A non-empty burst sequence starts and ends with a click, and two
      pauses are never adjacent. */
  lemma ShootShape(clicks: int)
    requires clicks >= 1
    ensures Shoot(clicks)[0] == LeftClick
    ensures Shoot(clicks)[|Shoot(clicks)| - 1] == LeftClick
    ensures forall i :: 0 <= i < |Shoot(clicks)| - 1 ==>
              !(Shoot(clicks)[i].Wait? && Shoot(clicks)[i + 1].Wait?)
  {
    var t := Shoot(clicks);
    assert (|t| - 1) % 5 == 4;
    forall i | 0 <= i < |t| - 1
      ensures !(t[i].Wait? && t[i + 1].Wait?)
    {
      if i % 5 == 4 {
        assert (i + 1) % 5 == 0;
      } else {
        assert (i + 1) % 5 == i % 5 + 1;
      }
    }
  }

  /** The default call clicks nine times with six pauses; no passes, no
      commands. */
  lemma ShootDefaults(clicks: int)
    ensures Count(Shoot(DefaultBursts), LeftClick) == 9
    ensures Count(Shoot(DefaultBursts), Wait(ClickPause)) == 6
    ensures clicks <= 0 ==> Shoot(clicks) == []
  {
    ShootCounts(DefaultBursts);
  }
}
