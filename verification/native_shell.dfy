/**
 * Placing the window on the displays that are there. Widths and coordinates are unbounded integers.
 */
module NativeShell {
  import opened Options

  const SCHEMA_VERSION := 1
  const MIN_WIDTH := 640
  const MIN_HEIGHT := 480
  const MIN_VISIBLE_AREA := 64 * 64

  datatype Rectangle = Rectangle(x: int, y: int, width: int, height: int)
  datatype Display = Display(id: nat, primary: bool, work: Rectangle)
  datatype WindowState = WindowState(schemaVersion: int, bounds: Rectangle, maximized: bool)

  /** `id` zero is the empty identifier. */
  predicate ValidDisplay(d: Display) {
    d.id != 0 && d.work.width >= MIN_WIDTH && d.work.height >= MIN_HEIGHT
  }

  predicate ValidWindow(w: WindowState) {
    w.schemaVersion == SCHEMA_VERSION && w.bounds.width >= MIN_WIDTH && w.bounds.height >= MIN_HEIGHT
  }

  predicate Inside(a: Rectangle, b: Rectangle) {
    b.x <= a.x && a.x + a.width <= b.x + b.width && b.y <= a.y && a.y + a.height <= b.y + b.height
  }

  function Min(a: int, b: int): int {
    if a < b then a else b
  }

  function Max(a: int, b: int): int {
    if a > b then a else b
  }

  /** Go's integer division truncates; here the difference is never negative. */
  function Centered(work: Rectangle, width: int, height: int): Rectangle {
    Rectangle(work.x + (work.width - width) / 2, work.y + (work.height - height) / 2, width, height)
  }

  function DefaultWindow(primary: Display): WindowState {
    var width, height := Min(1280, primary.work.width), Min(800, primary.work.height);
    WindowState(SCHEMA_VERSION, Centered(primary.work, width, height), false)
  }

  function IntersectionArea(a: Rectangle, b: Rectangle): int {
    var left, top := Max(a.x, b.x), Max(a.y, b.y);
    var right, bottom := Min(a.x + a.width, b.x + b.width), Min(a.y + a.height, b.y + b.height);
    if right <= left || bottom <= top then 0 else (right - left) * (bottom - top)
  }

  /** The first of the displays that shows most of the window, if any shows enough. */
  function Best(displays: seq<Display>, bounds: Rectangle): Option<Display> {
    if displays == [] then None
    else
      var front, last := Best(displays[..|displays| - 1], bounds), displays[|displays| - 1];
      var area := IntersectionArea(bounds, last.work);
      if area >= MIN_VISIBLE_AREA && (front.None? || area > IntersectionArea(bounds, front.value.work)) then Some(last)
        else front
  }

  function Clamped(bounds: Rectangle, work: Rectangle): Rectangle {
    var width, height := Min(bounds.width, work.width), Min(bounds.height, work.height);
    Rectangle(Min(Max(bounds.x, work.x), work.x + work.width - width),
              Min(Max(bounds.y, work.y), work.y + work.height - height), width, height)
  }

  function Normalized(state: WindowState, displays: seq<Display>, primary: Display): WindowState {
    if !ValidWindow(state) then DefaultWindow(primary)
    else
      var best := Best(displays, state.bounds);
      var bounds :=
        if best.None? then
          Centered(primary.work, Min(state.bounds.width, primary.work.width),
                   Min(state.bounds.height, primary.work.height))
        else Clamped(state.bounds, best.value.work);
      WindowState(SCHEMA_VERSION, bounds, state.maximized)
  }

  lemma {:induction false} BestShowsEnough(displays: seq<Display>, bounds: Rectangle)
    ensures match Best(displays, bounds)
            case None => forall d :: d in displays ==> IntersectionArea(bounds, d.work) < MIN_VISIBLE_AREA
            case Some(best) =>
              && best in displays && IntersectionArea(bounds, best.work) >= MIN_VISIBLE_AREA
              && forall d :: d in displays ==> IntersectionArea(bounds, d.work) <= IntersectionArea(bounds, best.work)
    decreases |displays|
  {
    hide IntersectionArea;
    if displays != [] {
      BestShowsEnough(displays[..|displays| - 1], bounds);
      assert displays == displays[..|displays| - 1] + [displays[|displays| - 1]];
    }
  }

  /** `picked` are the valid displays at the positions `at`, which increase and leave none out. */
  ghost predicate PickedAt(displays: seq<Display>, picked: seq<Display>, at: seq<nat>) {
    && |at| == |picked| && (forall k :: 0 <= k < |at| ==> at[k] < |displays| && displays[at[k]] == picked[k])
    && (forall k, l :: 0 <= k < l < |at| ==> at[k] < at[l])
    && forall i :: 0 <= i < |displays| ==> (i in at <==> ValidDisplay(displays[i]))
  }

  lemma NothingPicked(displays: seq<Display>)
    ensures PickedAt(displays[..0], [], [])
  {
  }

  lemma PickedNext(displays: seq<Display>, i: nat, picked: seq<Display>, at: seq<nat>)
    requires i < |displays| && PickedAt(displays[..i], picked, at)
    ensures ValidDisplay(displays[i]) ==> PickedAt(displays[..i + 1], picked + [displays[i]], at + [i])
    ensures !ValidDisplay(displays[i]) ==> PickedAt(displays[..i + 1], picked, at)
  {
    hide ValidDisplay;
    assert forall k :: 0 <= k < |at| ==> at[k] in at;
    assert forall k :: k in at ==> k < i;
    assert forall k :: k in at + [i] <==> k in at || k == i;
  }

  /** Exactly the valid displays are kept, in their order, and the first of them that is primary is taken. */
  method UsableDisplays(displays: seq<Display>) returns (primary: Option<Display>, valid: seq<Display>)
    ensures exists at :: PickedAt(displays, valid, at)
    ensures forall d :: d in valid <==> d in displays && ValidDisplay(d)
    ensures primary.Some? <==> exists d :: d in displays && ValidDisplay(d)
    ensures primary.Some? ==>
              || (valid != [] && primary.value == valid[0] && forall d :: d in valid ==> !d.primary)
              || exists k :: 0 <= k < |valid| && primary.value == valid[k] && valid[k].primary &&
                             forall j :: 0 <= j < k ==> !valid[j].primary
  {
    hide PickedAt, ValidDisplay;
    valid := [];
    ghost var at: seq<nat> := [];
    NothingPicked(displays);
    for i := 0 to |displays|
      invariant forall d :: d in valid <==> d in displays[..i] && ValidDisplay(d)
      invariant PickedAt(displays[..i], valid, at)
    {
      assert displays[..i + 1] == displays[..i] + [displays[i]];
      PickedNext(displays, i, valid, at);
      if ValidDisplay(displays[i]) {
        valid := valid + [displays[i]];
        at := at + [i];
      }
    }
    assert displays[..|displays|] == displays;
    if |valid| == 0 {
      return None, valid;
    }
    assert valid[0] in valid;
    for i := 0 to |valid|
      invariant forall k :: 0 <= k < i ==> !valid[k].primary
    {
      if valid[i].primary {
        return Some(valid[i]), valid;
      }
    }
    return Some(valid[0]), valid;
  }

  method NormalizeWindow(state: WindowState, displays: seq<Display>, primary: Display) returns (result: WindowState)
    ensures result == Normalized(state, displays, primary)
  {
    hide IntersectionArea;
    var bounds := state.bounds;
    if state.schemaVersion != SCHEMA_VERSION || bounds.width < MIN_WIDTH || bounds.height < MIN_HEIGHT {
      return DefaultWindow(primary);
    }
    var selected: Option<Display> := None;
    var bestArea := 0;
    for i := 0 to |displays|
      invariant selected == Best(displays[..i], bounds)
      invariant bestArea == if selected.None? then 0 else IntersectionArea(bounds, selected.value.work)
    {
      assert displays[..i + 1][..i] == displays[..i];
      var area := IntersectionArea(bounds, displays[i].work);
      if area >= MIN_VISIBLE_AREA && area > bestArea {
        selected, bestArea := Some(displays[i]), area;
      }
    }
    assert displays[..|displays|] == displays;
    if selected.None? {
      bounds := Centered(primary.work, Min(bounds.width, primary.work.width), Min(bounds.height, primary.work.height));
    } else {
      bounds := Clamped(bounds, selected.value.work);
    }
    return WindowState(SCHEMA_VERSION, bounds, state.maximized);
  }

  // ----- Main results -------------------------------------------------------------------------

  lemma ProductGrows(a: int, b: int, c: int, d: int)
    requires 0 <= a <= c && 0 <= b <= d
    ensures a * b <= c * d
    ensures a * b == c * d && c > 0 && d > 0 ==> a == c && b == d
  {
    assert c * d - a * b == (c - a) * d + a * (d - b);
    NotNegative(c - a, d);
    NotNegative(a, d - b);
    if a * b == c * d && c > 0 && d > 0 {
      assert (c - a) * d == 0;
      if c > a {
        ProductPositive(c - a, d);
      }
      assert a == c;
      if d > b {
        ProductPositive(a, d - b);
      }
    }
  }

  lemma NotNegative(a: int, b: int)
    requires a >= 0 && b >= 0
    ensures a * b >= 0
  {
  }

  lemma ProductPositive(a: int, b: int)
    requires a > 0 && b > 0
    ensures a * b > 0
  {
  }

  /** A window is shown whole exactly by the displays it lies inside of. */
  lemma FullAreaIffInside(a: Rectangle, b: Rectangle)
    requires a.width > 0 && a.height > 0
    ensures IntersectionArea(a, b) <= a.width * a.height
    ensures IntersectionArea(a, b) == a.width * a.height <==> Inside(a, b)
  {
    var left, top := Max(a.x, b.x), Max(a.y, b.y);
    var right, bottom := Min(a.x + a.width, b.x + b.width), Min(a.y + a.height, b.y + b.height);
    ProductPositive(a.width, a.height);
    if right > left && bottom > top {
      ProductGrows(right - left, bottom - top, a.width, a.height);
    }
  }

  lemma ClampedInside(bounds: Rectangle, work: Rectangle)
    requires bounds.width >= MIN_WIDTH && bounds.height >= MIN_HEIGHT && work.width >= MIN_WIDTH &&
             work.height >= MIN_HEIGHT
    ensures var c := Clamped(bounds, work); Inside(c, work) && c.width >= MIN_WIDTH && c.height >= MIN_HEIGHT
    ensures Inside(bounds, work) ==> Clamped(bounds, work) == bounds
  {
  }

  lemma CenteredInside(work: Rectangle, width: int, height: int)
    requires width <= work.width && height <= work.height
    ensures Inside(Centered(work, width, height), work)
  {
  }

  ghost predicate Usable(displays: seq<Display>, primary: Display) {
    primary in displays && forall d :: d in displays ==> ValidDisplay(d)
  }

  /** The result is a valid window that lies wholly on one display; a maximized window stays so unless it was reset. */
  lemma NormalizedIsOnOneDisplay(state: WindowState, displays: seq<Display>, primary: Display)
    requires Usable(displays, primary)
    ensures var n := Normalized(state, displays, primary);
            && ValidWindow(n) && (exists d :: d in displays && Inside(n.bounds, d.work))
            && (n.maximized <==> state.maximized && ValidWindow(state))
  {
    hide IntersectionArea;
    if ValidWindow(state) {
      BestShowsEnough(displays, state.bounds);
      var best := Best(displays, state.bounds);
      if best.Some? {
        ClampedInside(state.bounds, best.value.work);
        assert Inside(Normalized(state, displays, primary).bounds, best.value.work);
      } else {
        CenteredInside(primary.work, Min(state.bounds.width, primary.work.width),
                       Min(state.bounds.height, primary.work.height));
      }
    } else {
      CenteredInside(primary.work, Min(1280, primary.work.width), Min(800, primary.work.height));
    }
  }

  /** A window is left alone exactly when it is valid and lies wholly on one display. */
  lemma UnchangedIffOnOneDisplay(state: WindowState, displays: seq<Display>, primary: Display)
    requires Usable(displays, primary)
    ensures Normalized(state, displays, primary) == state <==>
              ValidWindow(state) && exists d :: d in displays && Inside(state.bounds, d.work)
  {
    hide IntersectionArea;
    NormalizedIsOnOneDisplay(state, displays, primary);
    if ValidWindow(state) && exists d :: d in displays && Inside(state.bounds, d.work) {
      var d :| d in displays && Inside(state.bounds, d.work);
      BestShowsEnough(displays, state.bounds);
      FullAreaIffInside(state.bounds, d.work);
      ProductGrows(MIN_WIDTH, MIN_HEIGHT, state.bounds.width, state.bounds.height);
      var best := Best(displays, state.bounds).value;
      FullAreaIffInside(state.bounds, best.work);
      ClampedInside(state.bounds, best.work);
    }
  }

  lemma NormalizingTwiceIsOnce(state: WindowState, displays: seq<Display>, primary: Display)
    requires Usable(displays, primary)
    ensures Normalized(Normalized(state, displays, primary), displays, primary) == Normalized(state, displays, primary)
  {
    NormalizedIsOnOneDisplay(state, displays, primary);
    UnchangedIffOnOneDisplay(Normalized(state, displays, primary), displays, primary);
  }
}
