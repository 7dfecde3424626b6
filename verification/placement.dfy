/** Where the popover menu is put on screen (components/Menu.tsx, the effect
    that runs once the menu is mounted).

    The effect reads the trigger's position and size, the menu's measured
    size and the window, and issues a sequence of state writes: a new left,
    a new top and the list of mirroring transforms, one per flipped axis.
    React keeps the last write to each piece of state, so the effect is
    modelled as the list of writes it issues and the placement as that list
    committed in order. Coordinates are exact `real`s; the floating-point
    rounding of the running code is not modelled. */
module Placement {
  import opened Options

  /** Margin kept between the menu and the window edges. */
  const ScreenIndent: real := 8.0

  /** A mirroring transform that makes the menu grow away from the flipped
      edge: `translateX` or `translateY` by minus the animated size. */
  datatype Axis = TranslateX | TranslateY

  /** The environment read live by the component: window size, status bar
      height (absent on some platforms) and text direction. */
  datatype Env = Env(windowWidth: real, screenHeight: real, statusBarHeight: Option<real>, isRtl: bool)

  /** Trigger position and size (from measuring the trigger in the window)
      and the menu's measured size. */
  datatype Geometry = Geometry(
    left: real, top: real,
    buttonWidth: real, buttonHeight: real,
    menuWidth: real, menuHeight: real)

  /** The placement state the effect writes. */
  datatype Placed = Placed(left: real, top: real, transforms: seq<Axis>)

  /** One state setter call made by the effect. */
  datatype Write = SetLeft(x: real) | SetTop(y: real) | SetTransforms(t: seq<Axis>)

  function Min(a: real, b: real): real {
    if a <= b then a else b
  }

  /** The usable window height: the window height less the status bar, an
      absent status bar height counting as zero. */
  function WindowHeight(env: Env): (h: real)
    ensures env.statusBarHeight.None? ==> h == env.screenHeight
    ensures env.statusBarHeight.Some? ==> h + env.statusBarHeight.value == env.screenHeight
  {
    env.screenHeight - env.statusBarHeight.GetOr(0.0)
  }

  /** Whether the menu is flipped horizontally: in right-to-left layouts when
      the menu, aligned to the trigger's right edge, would start more than
      8 px from the window's left edge; in left-to-right layouts when it
      would cross the right margin. */
  predicate FlipX(g: Geometry, env: Env) {
    || (env.isRtl && g.left + g.buttonWidth - g.menuWidth > ScreenIndent)
    || (!env.isRtl && g.left + g.menuWidth > env.windowWidth - ScreenIndent)
  }

  /** Whether the menu is flipped vertically: it would cross the bottom margin. */
  predicate FlipY(g: Geometry, env: Env) {
    g.top > WindowHeight(env) - g.menuHeight - ScreenIndent
  }

  /** The horizontal setter calls: the flipped anchor, or the clamp to the
      leading margin, or nothing. */
  function HorizontalWrites(g: Geometry, env: Env): seq<Write> {
    if FlipX(g, env) then [SetLeft(Min(env.windowWidth - ScreenIndent, g.left + g.buttonWidth))]
    else if g.left < ScreenIndent then [SetLeft(ScreenIndent)]
    else []
  }

  /** The vertical setter calls. On a flip the top is written twice, first
      with the bottom margin and then with the flipped anchor. */
  function VerticalWrites(g: Geometry, env: Env): seq<Write> {
    if FlipY(g, env) then
      [SetTop(WindowHeight(env) - ScreenIndent),
       SetTop(Min(WindowHeight(env) - ScreenIndent, g.top + g.buttonHeight))]
    else if g.top < ScreenIndent then [SetTop(ScreenIndent)]
    else []
  }

  /** The transforms pushed while testing the two axes, in that order. */
  function TransformList(g: Geometry, env: Env): seq<Axis> {
    (if FlipX(g, env) then [TranslateX] else []) + (if FlipY(g, env) then [TranslateY] else [])
  }

  /** The setter calls the effect makes, in program order. */
  function EffectWrites(g: Geometry, env: Env): seq<Write> {
    HorizontalWrites(g, env) + VerticalWrites(g, env) + [SetTransforms(TransformList(g, env))]
  }

  /** Applies one setter call. */
  function Put(p: Placed, w: Write): Placed {
    match w
    case SetLeft(x) => p.(left := x)
    case SetTop(y) => p.(top := y)
    case SetTransforms(t) => p.(transforms := t)
  }

  /** Applies setter calls in order; each one replaces its piece of state. */
  function Commit(p: Placed, ws: seq<Write>): Placed
    decreases |ws|
  {
    if |ws| == 0 then p else Commit(Put(p, ws[0]), ws[1..])
  }

  lemma {:induction false} CommitAppend(p: Placed, a: seq<Write>, b: seq<Write>)
    ensures Commit(p, a + b) == Commit(Commit(p, a), b)
    decreases |a|
  {
    if |a| > 0 {
      assert (a + b)[1..] == a[1..] + b;
      assert (a + b)[0] == a[0];
      CommitAppend(Put(p, a[0]), a[1..], b);
    } else {
      assert a + b == b;
    }
  }

  /** The placement the effect leaves behind, starting from the trigger's
      own position and the previous transforms. */
  function Place(g: Geometry, env: Env, previous: seq<Axis>): (r: Placed)
    ensures FlipX(g, env) ==> r.left == Min(env.windowWidth - ScreenIndent, g.left + g.buttonWidth)
    ensures !FlipX(g, env) && g.left < ScreenIndent ==> r.left == ScreenIndent
    ensures !FlipX(g, env) && g.left >= ScreenIndent ==> r.left == g.left
    ensures FlipY(g, env) ==> r.top == Min(WindowHeight(env) - ScreenIndent, g.top + g.buttonHeight)
    ensures !FlipY(g, env) && g.top < ScreenIndent ==> r.top == ScreenIndent
    ensures !FlipY(g, env) && g.top >= ScreenIndent ==> r.top == g.top
    ensures TranslateX in r.transforms <==> FlipX(g, env)
    ensures TranslateY in r.transforms <==> FlipY(g, env)
    ensures |r.transforms| == (if FlipX(g, env) then 1 else 0) + (if FlipY(g, env) then 1 else 0)
    ensures FlipX(g, env) ==> r.transforms[0] == TranslateX
    ensures FlipY(g, env) ==> r.transforms[|r.transforms| - 1] == TranslateY
  {
    var start := Placed(g.left, g.top, previous);
    var ws := EffectWrites(g, env);
    PlaceSteps(g, env, start);
    Commit(start, ws)
  }

  lemma CommitOne(p: Placed, w: Write)
    ensures Commit(p, [w]) == Put(p, w)
  {
    assert [w][1..] == [];
  }

  /** The left coordinate once the horizontal writes are committed. */
  lemma CommitHorizontal(p: Placed, g: Geometry, env: Env)
    ensures Commit(p, HorizontalWrites(g, env))
         == p.(left := if FlipX(g, env) then Min(env.windowWidth - ScreenIndent, g.left + g.buttonWidth)
                       else if g.left < ScreenIndent then ScreenIndent else p.left)
  {
    var ws := HorizontalWrites(g, env);
    if |ws| == 1 {
      CommitOne(p, ws[0]);
    }
  }

  /** The top coordinate once the vertical writes are committed: on a flip
      the second write wins. */
  lemma CommitVertical(p: Placed, g: Geometry, env: Env)
    ensures Commit(p, VerticalWrites(g, env))
         == p.(top := if FlipY(g, env) then Min(WindowHeight(env) - ScreenIndent, g.top + g.buttonHeight)
                      else if g.top < ScreenIndent then ScreenIndent else p.top)
  {
    var ws := VerticalWrites(g, env);
    if |ws| == 2 {
      assert ws == [ws[0]] + [ws[1]];
      CommitAppend(p, [ws[0]], [ws[1]]);
      CommitOne(p, ws[0]);
      CommitOne(Put(p, ws[0]), ws[1]);
    } else if |ws| == 1 {
      CommitOne(p, ws[0]);
    }
  }

  /** Commits the effect's writes group by group: the horizontal writes,
      then the vertical writes, then the transform list. */
  lemma PlaceSteps(g: Geometry, env: Env, start: Placed)
    ensures var r := Commit(start, EffectWrites(g, env));
      && r.left == (if FlipX(g, env) then Min(env.windowWidth - ScreenIndent, g.left + g.buttonWidth)
                    else if g.left < ScreenIndent then ScreenIndent else start.left)
      && r.top == (if FlipY(g, env) then Min(WindowHeight(env) - ScreenIndent, g.top + g.buttonHeight)
                   else if g.top < ScreenIndent then ScreenIndent else start.top)
      && r.transforms == TransformList(g, env)
  {
    var xw := HorizontalWrites(g, env);
    var yw := VerticalWrites(g, env);
    var last := [SetTransforms(TransformList(g, env))];
    CommitAppend(start, xw + yw, last);
    CommitAppend(start, xw, yw);
    CommitHorizontal(start, g, env);
    var p1 := Commit(start, xw);
    CommitVertical(p1, g, env);
    CommitOne(Commit(p1, yw), last[0]);
  }

  /** On a vertical flip the effect first writes the bottom margin as the
      top; that write is lost whenever the trigger's bottom edge is above
      the margin. */
  lemma FirstTopWriteDiscarded(g: Geometry, env: Env, previous: seq<Axis>)
    requires FlipY(g, env)
    requires g.top + g.buttonHeight < WindowHeight(env) - ScreenIndent
    ensures VerticalWrites(g, env)[0] == SetTop(WindowHeight(env) - ScreenIndent)
    ensures Place(g, env, previous).top == g.top + g.buttonHeight
    ensures Place(g, env, previous).top != WindowHeight(env) - ScreenIndent
  {
  }

  /** A horizontally flipped menu keeps its anchor edge inside the trailing
      margin and never past the trigger's far edge. */
  lemma FlippedLeftBounded(g: Geometry, env: Env, previous: seq<Axis>)
    requires FlipX(g, env)
    ensures Place(g, env, previous).left <= env.windowWidth - ScreenIndent
    ensures Place(g, env, previous).left <= g.left + g.buttonWidth
  {
  }

  /** An unflipped menu never starts inside the leading margin, and in a
      left-to-right layout a trigger clear of that margin leaves the whole
      menu inside the trailing margin. */
  lemma UnflippedLeftBounded(g: Geometry, env: Env, previous: seq<Axis>)
    requires !FlipX(g, env)
    ensures Place(g, env, previous).left >= ScreenIndent
    ensures !env.isRtl && g.left >= ScreenIndent ==>
      Place(g, env, previous).left + g.menuWidth <= env.windowWidth - ScreenIndent
  {
  }

  /** A vertically flipped menu hangs from a top inside the bottom margin. */
  lemma FlippedTopBounded(g: Geometry, env: Env, previous: seq<Axis>)
    requires FlipY(g, env)
    ensures Place(g, env, previous).top <= WindowHeight(env) - ScreenIndent
    ensures Place(g, env, previous).top <= g.top + g.buttonHeight
  {
  }

  /** An unflipped menu starts below the top margin, and from a trigger
      clear of that margin the whole menu is above the bottom margin. */
  lemma UnflippedTopBounded(g: Geometry, env: Env, previous: seq<Axis>)
    requires !FlipY(g, env)
    ensures Place(g, env, previous).top >= ScreenIndent
    ensures g.top >= ScreenIndent ==>
      Place(g, env, previous).top + g.menuHeight <= WindowHeight(env) - ScreenIndent
  {
  }

  /** The transform list does not depend on what was there before. */
  lemma TransformsReplaced(g: Geometry, env: Env, a: seq<Axis>, b: seq<Axis>)
    ensures Place(g, env, a) == Place(g, env, b)
  {
  }

  /** A 320x640 window, a trigger at (280, 100) of size 30x30 and a 100x50
      menu in a left-to-right layout: the menu flips horizontally and is
      anchored at the trigger's far edge. */
  lemma WideMenuFlipsX()
    ensures
      var g := Geometry(280.0, 100.0, 30.0, 30.0, 100.0, 50.0);
      var env := Env(320.0, 640.0, None, false);
      FlipX(g, env) && !FlipY(g, env) && Place(g, env, []) == Placed(310.0, 100.0, [TranslateX])
  {
  }

  /** The same window, a trigger at (10, 620) of size 20x10 and a 100x80
      menu: the menu flips vertically and hangs from the trigger's bottom
      edge. */
  lemma LowMenuFlipsY()
    ensures
      var g := Geometry(10.0, 620.0, 20.0, 10.0, 100.0, 80.0);
      var env := Env(320.0, 640.0, None, false);
      !FlipX(g, env) && FlipY(g, env) && Place(g, env, []) == Placed(10.0, 630.0, [TranslateY])
  {
  }
}
