/** The popover menu's visibility state machine (components/Menu.tsx).

    The menu is HIDDEN, ANIMATING (growing in after its first layout) or
    SHOWN. `show` measures the trigger and goes straight to SHOWN; the first
    layout event of the menu's content moves to ANIMATING, records the
    content size and marks the menu mounted, which runs the placement effect
    once; hide completion returns to HIDDEN and zeroes the animated size and
    opacity. The mounted flag is never cleared, so the placement happens
    once per component lifetime. The layout handler reads the live state;
    under that reading the entrance animation also plays only once.
    Animated values are recorded as the values last set explicitly; their
    timed evolution is not modelled. */
module Menu {
  import opened Options
  import Placement

  datatype Visibility = Hidden | Animating | Shown

  /** The trigger's rectangle as measured in the window. */
  datatype Rect = Rect(left: real, top: real, width: real, height: real)

  datatype Menu = Menu(
    state: Visibility,
    top: real, left: real,
    menuWidth: real, menuHeight: real,
    buttonWidth: real, buttonHeight: real,
    mounted: bool,
    transforms: seq<Placement.Axis>,
    sizeX: real, sizeY: real, opacity: real)

  /** What can happen to the menu: a show request whose trigger measurement
      may never arrive, a layout event of the menu's content (with the
      environment the placement effect then reads), or the end of the hide
      animation. */
  datatype Event =
    | ShowRequested(measured: Option<Rect>)
    | ContentLaidOut(width: real, height: real, env: Placement.Env)
    | HideFinished

  /** The state a freshly created menu starts in. */
  function Initial(): (m: Menu)
    ensures m.state == Hidden && !m.mounted && !ModalVisible(m)
  {
    Menu(Hidden, 0.0, 0.0, 0.0, 0.0, 0.0, 0.0, false, [], 0.0, 0.0, 0.0)
  }

  /** Whether the menu's modal is on screen. */
  function ModalVisible(m: Menu): (b: bool)
    ensures b <==> m.state != Hidden
  {
    m.state == Shown || m.state == Animating
  }

  /** `show`: once the trigger is measured, record its geometry and show the
      menu; if the measurement never arrives nothing changes. */
  function Show(m: Menu, measured: Option<Rect>): (r: Menu)
    ensures measured.None? ==> r == m
    ensures measured.Some? ==>
      && r.state == Shown
      && r.left == measured.value.left && r.top == measured.value.top
      && r.buttonWidth == measured.value.width && r.buttonHeight == measured.value.height
      && r == m.(state := Shown, left := r.left, top := r.top,
                 buttonWidth := r.buttonWidth, buttonHeight := r.buttonHeight)
    ensures r.state != Animating || m.state == Animating
  {
    match measured
    case None => m
    case Some(rect) =>
      m.(buttonHeight := rect.height, buttonWidth := rect.width, left := rect.left,
         state := Shown, top := rect.top)
  }

  /** The layout handler of the menu's content. */
  function OnLayout(m: Menu, width: real, height: real): (r: Menu)
    ensures m.mounted ==> r == m
    ensures !m.mounted && m.state == Animating ==> r == m
    ensures !m.mounted && m.state != Animating ==>
      r == m.(state := Animating, menuWidth := width, menuHeight := height, mounted := true)
  {
    if m.mounted then m
    else if m.state == Animating then m
    else
      var m1 := m.(state := Animating);
      var m2 := if width != m1.menuWidth then m1.(menuWidth := width) else m1;
      var m3 := if height != m2.menuHeight then m2.(menuHeight := height) else m2;
      m3.(mounted := true)
  }

  /** The trigger and content geometry the placement effect reads. */
  function GeometryOf(m: Menu): Placement.Geometry {
    Placement.Geometry(m.left, m.top, m.buttonWidth, m.buttonHeight, m.menuWidth, m.menuHeight)
  }

  /** The placement effect: when the menu is mounted it moves the menu on
      screen and sets the transforms; nothing else changes. */
  function PlacementEffect(m: Menu, env: Placement.Env): (r: Menu)
    ensures !m.mounted ==> r == m
    ensures m.mounted ==>
      var p := Placement.Place(GeometryOf(m), env, m.transforms);
      r == m.(left := p.left, top := p.top, transforms := p.transforms)
    ensures m.mounted ==> r.left >= Placement.ScreenIndent || Placement.FlipX(GeometryOf(m), env)
    ensures m.mounted ==> r.top >= Placement.ScreenIndent || Placement.FlipY(GeometryOf(m), env)
  {
    if m.mounted then
      var p := Placement.Place(GeometryOf(m), env, m.transforms);
      m.(left := p.left, top := p.top, transforms := p.transforms)
    else m
  }

  /** Completion of the hide animation. */
  function HideComplete(m: Menu): (r: Menu)
    ensures r.state == Hidden && !ModalVisible(r)
    ensures r.sizeX == 0.0 && r.sizeY == 0.0 && r.opacity == 0.0
    ensures r.mounted == m.mounted
    ensures r == m.(state := Hidden, sizeX := 0.0, sizeY := 0.0, opacity := 0.0)
  {
    m.(state := Hidden).(sizeX := 0.0, sizeY := 0.0).(opacity := 0.0)
  }

  /** The outcome of one event: the new state and whether the placement
      effect ran. */
  datatype Outcome = Outcome(menu: Menu, placed: bool)

  /** One event. The placement effect depends only on the mounted flag, so
      it runs exactly when a layout event turns that flag on. */
  function Handle(m: Menu, e: Event): (o: Outcome)
    ensures o.placed <==> e.ContentLaidOut? && !m.mounted && m.state != Animating
    ensures m.mounted ==> o.menu.mounted
  {
    match e
    case ShowRequested(measured) => Outcome(Show(m, measured), false)
    case ContentLaidOut(w, h, env) =>
      var m1 := OnLayout(m, w, h);
      if !m.mounted && m1.mounted then Outcome(PlacementEffect(m1, env), true)
      else Outcome(m1, false)
    case HideFinished => Outcome(HideComplete(m), false)
  }

  /** The outcome of a sequence of events: the final state and how many
      times the placement effect ran. */
  datatype Trace = Trace(menu: Menu, placements: nat)

  function Run(m: Menu, es: seq<Event>): Trace
    decreases |es|
  {
    if |es| == 0 then Trace(m, 0)
    else
      var o := Handle(m, es[0]);
      var t := Run(o.menu, es[1..]);
      Trace(t.menu, t.placements + (if o.placed then 1 else 0))
  }

  /** ANIMATING is entered only by the first layout event of an unmounted
      menu; `show` and hide completion never enter it. */
  lemma AnimatingOnlyFromFirstLayout(m: Menu, e: Event)
    requires m.state != Animating
    ensures Handle(m, e).menu.state == Animating <==> e.ContentLaidOut? && !m.mounted
  {
  }

  /** The mounted flag, once set, survives every sequence of events. */
  lemma {:induction false} MountedStays(m: Menu, es: seq<Event>)
    requires m.mounted
    ensures Run(m, es).menu.mounted
    ensures Run(m, es).placements == 0
    decreases |es|
  {
    if |es| > 0 {
      MountedStays(Handle(m, es[0]).menu, es[1..]);
    }
  }

  /** The placement effect runs at most once over any sequence of events. */
  lemma {:induction false} PlacementAtMostOnce(m: Menu, es: seq<Event>)
    ensures Run(m, es).placements <= 1
    ensures m.mounted ==> Run(m, es).placements == 0
    decreases |es|
  {
    if |es| > 0 {
      var o := Handle(m, es[0]);
      if o.placed {
        MountedStays(o.menu, es[1..]);
      } else {
        PlacementAtMostOnce(o.menu, es[1..]);
      }
    }
  }

  /** Once mounted and out of ANIMATING, the menu never animates in again:
      later show requests go straight to SHOWN. */
  lemma {:induction false} NoSecondEntrance(m: Menu, es: seq<Event>)
    requires m.mounted && m.state != Animating
    ensures Run(m, es).menu.state != Animating
    decreases |es|
  {
    if |es| > 0 {
      NoSecondEntrance(Handle(m, es[0]).menu, es[1..]);
    }
  }

  /** Hide completion is idempotent. */
  lemma HideCompleteIdempotent(m: Menu)
    ensures HideComplete(HideComplete(m)) == HideComplete(m)
  {
  }

  /** A second layout event in the same cycle changes nothing. */
  lemma LayoutOnce(m: Menu, w1: real, h1: real, w2: real, h2: real)
    ensures OnLayout(OnLayout(m, w1, h1), w2, h2) == OnLayout(m, w1, h1)
  {
  }

  /** A show that is measured always makes the modal visible. */
  lemma ShowMakesVisible(m: Menu, rect: Rect)
    ensures ModalVisible(Show(m, Some(rect)))
    ensures Show(m, Some(rect)).state == Shown
  {
  }

  /** After the first cycle, a new show keeps the raw trigger position: the
      placement effect does not run again. */
  lemma LaterShowUnplaced(m: Menu, rect: Rect, w: real, h: real, env: Placement.Env)
    requires m.mounted
    ensures
      var t := Run(m, [ShowRequested(Some(rect)), ContentLaidOut(w, h, env)]);
      t.menu.left == rect.left && t.menu.top == rect.top && t.placements == 0
      && t.menu.state == Shown
  {
    var es := [ShowRequested(Some(rect)), ContentLaidOut(w, h, env)];
    var m1 := Handle(m, es[0]).menu;
    assert Handle(m1, es[1]) == Outcome(m1, false);
    assert es[1..][1..] == [];
    assert Run(m1, es[1..]) == Trace(m1, 0);
  }
}
