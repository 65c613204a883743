/**
 * Region selection, the capture gate and the hotkeys of the full tool
 * (`ScreenshotApp` in main.py). Pointer events arrive as their coordinates;
 * the overlay window, the red selection frame and the main window are kept
 * as the few facts about them the handlers change. Every status-line update
 * is appended to a log, so a handler that shows two messages shows both.
 */
module Selection {
  import opened PyValue
  import Settings

  /** `(x, y, width, height)`. The full tool's areas are in screen
      coordinates (`event.x_root`, `event.y_root`); module SimpleApp stores
      the same shape in its overlay's own coordinates. */
  datatype Area = Area(x: int, y: int, width: int, height: int)

  /** The smallest side a selection may have. */
  const MinSide: int := 10

  /** The rectangle spanned by an anchor and an end point: its two x edges
      are the two x coordinates and its two y edges the two y coordinates,
      whichever way the pointer moved. */
  function BoundingBox(x0: int, y0: int, x1: int, y1: int): (a: Area)
    ensures a.width >= 0 && a.height >= 0
    ensures {a.x, a.x + a.width} == {x0, x1}
    ensures {a.y, a.y + a.height} == {y0, y1}
  {
    var left, top := Min(x0, x1), Min(y0, y1);
    Area(left, top, Max(x0, x1) - left, Max(y0, y1) - top)
  }

  /** The corners determine the box: any rectangle of non-negative size whose
      edges are the two points' coordinates is the bounding box, so the box
      does not depend on which point is the anchor. */
  lemma BoundingBoxUnique(x0: int, y0: int, x1: int, y1: int, b: Area)
    requires b.width >= 0 && b.height >= 0
    requires {b.x, b.x + b.width} == {x0, x1} && {b.y, b.y + b.height} == {y0, y1}
    ensures b == BoundingBox(x0, y0, x1, y1) == BoundingBox(x1, y1, x0, y0)
  {
    assert b.x in {x0, x1} && b.x + b.width in {x0, x1};
    assert b.y in {y0, y1} && b.y + b.height in {y0, y1};
    assert x0 in {b.x, b.x + b.width} && x1 in {b.x, b.x + b.width};
    assert y0 in {b.y, b.y + b.height} && y1 in {b.y, b.y + b.height};
  }

  /** The live frame `drag_selection` places, relative to the overlay whose
      top-left corner is at (`originX`, `originY`) on the screen. */
  function DragFrame(startX: int, startY: int, originX: int, originY: int, x: int, y: int): (a: Area)
    ensures a.width >= 0 && a.height >= 0
  {
    var relX, relY := startX - originX, startY - originY;
    Area(Min(relX, x), Min(relY, y), Abs(x - relX), Abs(y - relY))
  }

  /** The frame drawn while dragging is the area a release at the same point
      stores, moved into the overlay's coordinates: the abs-based drawing and
      the min/max-based storing agree. */
  lemma DragFrameMatchesRelease(startX: int, startY: int, originX: int, originY: int, x: int, y: int)
    ensures var stored := BoundingBox(startX, startY, x + originX, y + originY);
      DragFrame(startX, startY, originX, originY, x, y)
        == Area(stored.x - originX, stored.y - originY, stored.width, stored.height)
  {
  }

  /** Python's truthiness test on a start coordinate: unset (None) and 0 both
      count as "not started". */
  predicate Started(c: Option<int>)
  {
    c.Some? && c.value != 0
  }

  /** What a button release decides. */
  datatype Release =
    | NotStarted              // no usable anchor: the selection is cancelled
    | TooSmall(area: Area)    // a side under the minimum: reported, then cancelled
    | Selected(area: Area)    // stored as the screenshot area

  /** `complete_selection`'s decision for a release at (`endX`, `endY`). */
  function DecideRelease(startX: Option<int>, startY: Option<int>, endX: int, endY: int): (r: Release)
    ensures r.NotStarted? <==> !(Started(startX) && Started(startY))
    ensures !r.NotStarted? ==> r.area == BoundingBox(startX.value, startY.value, endX, endY)
    ensures r.Selected? <==>
      Started(startX) && Started(startY)
      && Abs(endX - startX.value) >= MinSide && Abs(endY - startY.value) >= MinSide
  {
    if !Started(startX) || !Started(startY) then NotStarted
    else
      var a := BoundingBox(startX.value, startY.value, endX, endY);
      if a.width < MinSide || a.height < MinSide then TooSmall(a) else Selected(a)
  }

  /** A stored area always has both sides at least the minimum. */
  lemma SelectedIsLargeEnough(startX: Option<int>, startY: Option<int>, endX: int, endY: int)
    requires DecideRelease(startX, startY, endX, endY).Selected?
    ensures var a := DecideRelease(startX, startY, endX, endY).area;
      a.width >= MinSide && a.height >= MinSide
  {
  }

  /** Swapping anchor and end point (both non-zero) decides the same way. */
  lemma ReleaseDirectionFree(x0: int, y0: int, x1: int, y1: int)
    requires x0 != 0 && y0 != 0 && x1 != 0 && y1 != 0
    ensures DecideRelease(Some(x0), Some(y0), x1, y1) == DecideRelease(Some(x1), Some(y1), x0, y0)
  {
    var a := BoundingBox(x0, y0, x1, y1);
    BoundingBoxUnique(x0, y0, x1, y1, a);
  }

  /** Where a coordinate is 0 the direction of the drag matters: dragging
      from (100, 50) up to the screen corner stores the box, while the same
      drag started at the corner is cancelled by the truthiness test. */
  lemma DirectionMattersAtZero()
    ensures DecideRelease(Some(100), Some(50), 0, 0) == Selected(Area(0, 0, 100, 50))
    ensures DecideRelease(Some(0), Some(0), 100, 50) == NotStarted
  {
  }

  /** A drag anchored on screen column 0 or row 0 never selects anything. */
  lemma ZeroAnchorNeverSelects(x0: int, y0: int, x1: int, y1: int)
    requires x0 == 0 || y0 == 0
    ensures DecideRelease(Some(x0), Some(y0), x1, y1) == NotStarted
  {
  }

  /** A drag from (10, 10) to (15, 12) is 5 by 2: reported too small. */
  lemma UndersizedDragExample()
    ensures DecideRelease(Some(10), Some(10), 15, 12) == TooSmall(Area(10, 10, 5, 2))
  {
  }

  /** Messages the handlers put on the status line. */
  datatype Status =
    | SelectPrompt
    | SelectionCancelled
    | SelectionCleared
    | AreaTooSmall
    | AreaSelected(area: Area)
    | NoAreaSelected
    | Capturing
    | TransparencyPercent(percent: int)

  /** The messages a release shows, in order. */
  function ReleaseMessages(r: Release): seq<Status>
  {
    match r
    case NotStarted => [SelectionCancelled]
    case TooSmall(_) => [AreaTooSmall, SelectionCancelled]
    case Selected(a) => [AreaSelected(a)]
  }

  /** `max(0.3, min(1.0, current + delta))`, over exact reals. */
  function ClampTransparency(current: real, delta: real): (r: real)
    ensures 0.3 <= r <= 1.0
    ensures 0.3 <= current + delta <= 1.0 ==> r == current + delta
    ensures current + delta < 0.3 ==> r == 0.3
    ensures current + delta > 1.0 ==> r == 1.0
  {
    var v := current + delta;
    if v > 1.0 then 1.0 else if v < 0.3 then 0.3 else v
  }

  /** Away from the bounds, F11 followed by F12 comes back to the opacity it
      started from. */
  lemma ClampRoundTrip(current: real)
    requires 0.4 <= current <= 0.9
    ensures ClampTransparency(ClampTransparency(current, -0.1), 0.1) == current
  {
  }

  /** The keys the global listener tells apart. */
  datatype Key = F10 | F11 | F12 | OtherKey(name: string)

  datatype Action = Capture | AdjustTransparency(delta: real) | NoAction

  /** `on_key_press`: F10 captures, F11 lowers the opacity by a tenth, F12
      raises it by a tenth, every other key does nothing. */
  function Route(key: Key): (a: Action)
    ensures a == Capture <==> key == F10
    ensures a == AdjustTransparency(-0.1) <==> key == F11
    ensures a == AdjustTransparency(0.1) <==> key == F12
    ensures a == NoAction <==> key.OtherKey?
  {
    match key
    case F10 => Capture
    case F11 => AdjustTransparency(-0.1)
    case F12 => AdjustTransparency(0.1)
    case OtherKey(_) => NoAction
  }

  class ScreenshotApp {
    /** The anchor of the current drag, screen coordinates (`start_x`,
        `start_y`); None before any press. */
    var startX: Option<int>
    var startY: Option<int>
    /** `selection_frame`: where the red frame was last placed in the overlay,
        None until a press. Destroying the widget (on release, or with the
        overlay) leaves the attribute as it was, and so does the model. */
    var frame: Option<Area>
    var overlayOpen: bool
    var mainShown: bool
    /** `screenshot_area`. */
    var area: Option<Area>
    var statusLog: seq<Status>
    const settings: Settings.SettingsManager

    constructor (settings: Settings.SettingsManager)
      ensures this.settings == settings
      ensures area == None && startX == None && startY == None && frame == None
      ensures !overlayOpen && mainShown && statusLog == []
    {
      this.settings := settings;
      startX, startY, frame := None, None, None;
      overlayOpen, mainShown := false, true;
      area := None;
      statusLog := [];
    }

    /** `select_area`: hide the main window, open the overlay, forget any
        previous anchor and frame. The stored area is kept. */
    method SelectArea()
      modifies this
      ensures startX == None && startY == None && frame == None
      ensures overlayOpen && !mainShown
      ensures area == old(area) && statusLog == old(statusLog) + [SelectPrompt]
    {
      statusLog := statusLog + [SelectPrompt];
      overlayOpen, mainShown := true, false;
      startX, startY, frame := None, None, None;
    }

    /** `cancel_selection`: close the overlay and show the main window. The
        anchor and the stored area are left as they were. */
    method CancelSelection()
      modifies this
      ensures !overlayOpen && mainShown
      ensures area == old(area) && startX == old(startX) && startY == old(startY)
      ensures frame == old(frame)
      ensures statusLog == old(statusLog) + [SelectionCancelled]
    {
      overlayOpen, mainShown := false, true;
      statusLog := statusLog + [SelectionCancelled];
    }

    /** `start_selection`: a press at screen point (`rootX`, `rootY`), which
        is (`x`, `y`) inside the overlay. */
    method StartSelection(rootX: int, rootY: int, x: int, y: int)
      modifies this
      ensures startX == Some(rootX) && startY == Some(rootY)
      ensures frame == Some(Area(x, y, 1, 1))
      ensures area == old(area) && overlayOpen == old(overlayOpen) && mainShown == old(mainShown)
      ensures statusLog == old(statusLog)
    {
      startX, startY := Some(rootX), Some(rootY);
      frame := Some(Area(x, y, 1, 1));
    }

    /** `drag_selection`: move the frame to span the anchor and the pointer at
        (`x`, `y`) inside an overlay whose origin is (`originX`, `originY`);
        nothing happens without a truthy anchor and a frame. */
    method DragSelection(x: int, y: int, originX: int, originY: int)
      modifies this
      ensures Started(old(startX)) && Started(old(startY)) && old(frame).Some? ==>
        frame == Some(DragFrame(old(startX).value, old(startY).value, originX, originY, x, y))
      ensures !(Started(old(startX)) && Started(old(startY)) && old(frame).Some?) ==>
        frame == old(frame)
      ensures startX == old(startX) && startY == old(startY) && area == old(area)
      ensures overlayOpen == old(overlayOpen) && mainShown == old(mainShown)
      ensures statusLog == old(statusLog)
    {
      if Started(startX) && Started(startY) && frame.Some? {
        frame := Some(DragFrame(startX.value, startY.value, originX, originY, x, y));
      }
    }

    /** `complete_selection`: a release at screen point (`rootX`, `rootY`).
        Only a large enough selection replaces the stored area; every other
        release keeps the area that was stored before. Either way the overlay
        closes. */
    method CompleteSelection(rootX: int, rootY: int)
      modifies this
      ensures var r := DecideRelease(old(startX), old(startY), rootX, rootY);
        && area == (if r.Selected? then Some(r.area) else old(area))
        && statusLog == old(statusLog) + ReleaseMessages(r)
      ensures !overlayOpen && mainShown && frame == old(frame)
      ensures startX == old(startX) && startY == old(startY)
    {
      var r := DecideRelease(startX, startY, rootX, rootY);
      if r.NotStarted? {
        CancelSelection();
        return;
      }
      var a := BoundingBox(startX.value, startY.value, rootX, rootY);
      if a.width < MinSide || a.height < MinSide {
        statusLog := statusLog + [AreaTooSmall];
        CancelSelection();
        return;
      }
      area := Some(a);
      overlayOpen, mainShown := false, true;
      statusLog := statusLog + [AreaSelected(a)];
    }

    /** `clear_selection`. */
    method ClearSelection()
      modifies this
      ensures area == None
      ensures startX == old(startX) && startY == old(startY) && frame == old(frame)
      ensures overlayOpen == old(overlayOpen) && mainShown == old(mainShown)
      ensures statusLog == old(statusLog) + [SelectionCleared]
    {
      area := None;
      statusLog := statusLog + [SelectionCleared];
    }

    /** The gate of `capture_screenshot`: the region handed to the screen
        grab, or None, with an error on the status line, when no area is
        stored. */
    method CaptureScreenshot() returns (region: Option<Area>)
      modifies this
      ensures region == old(area)
      ensures statusLog == old(statusLog) + [if old(area).None? then NoAreaSelected else Capturing]
      ensures area == old(area) && startX == old(startX) && startY == old(startY)
      ensures frame == old(frame) && overlayOpen == old(overlayOpen) && mainShown == old(mainShown)
    {
      if area.None? {
        statusLog := statusLog + [NoAreaSelected];
        return None;
      }
      statusLog := statusLog + [Capturing];
      region := area;
    }

    /** `adjust_transparency`: move the stored opacity by `delta` and clamp
        it. A stored value that is not a number makes the addition raise,
        which the handler swallows, and nothing changes. Writing the file and
        the window's alpha are not modelled. */
    method AdjustOpacity(delta: real)
      modifies this, settings
      ensures var cur := AsReal(Settings.Lookup(old(settings.settings), "window_transparency"));
        && (cur.Some? ==>
              && settings.settings == old(settings.settings)["window_transparency" :=
                   VReal(ClampTransparency(cur.value, delta))]
              && statusLog == old(statusLog) +
                   [TransparencyPercent((ClampTransparency(cur.value, delta) * 100.0).Floor)])
        && (cur.None? ==>
              settings.settings == old(settings.settings) && statusLog == old(statusLog))
      ensures area == old(area) && startX == old(startX) && startY == old(startY)
      ensures frame == old(frame) && overlayOpen == old(overlayOpen) && mainShown == old(mainShown)
    {
      var current := AsReal(settings.Get("window_transparency"));
      if current.Some? {
        var newValue := ClampTransparency(current.value, delta);
        settings.Set("window_transparency", VReal(newValue));
        statusLog := statusLog + [TransparencyPercent((newValue * 100.0).Floor)];
      }
    }

    /** `on_key_press`: returns the region handed to the screen grab when the
        key captured one. */
    method OnKeyPress(key: Key) returns (region: Option<Area>)
      modifies this, settings
      ensures key != F10 ==> region == None
      ensures key == F10 ==> region == old(area)
      ensures key == F10 ==>
        settings.settings == old(settings.settings) &&
        statusLog == old(statusLog) + [if old(area).None? then NoAreaSelected else Capturing]
      ensures key == F11 || key == F12 ==>
        var delta := if key == F11 then -0.1 else 0.1;
        var cur := AsReal(Settings.Lookup(old(settings.settings), "window_transparency"));
        && (cur.Some? ==>
              && settings.settings == old(settings.settings)["window_transparency" :=
                   VReal(ClampTransparency(cur.value, delta))]
              && statusLog == old(statusLog) +
                   [TransparencyPercent((ClampTransparency(cur.value, delta) * 100.0).Floor)])
        && (cur.None? ==>
              settings.settings == old(settings.settings) && statusLog == old(statusLog))
      ensures key.OtherKey? ==> statusLog == old(statusLog) && settings.settings == old(settings.settings)
      ensures area == old(area) && startX == old(startX) && startY == old(startY)
      ensures frame == old(frame) && overlayOpen == old(overlayOpen) && mainShown == old(mainShown)
    {
      match Route(key)
      case Capture =>
        region := CaptureScreenshot();
      case AdjustTransparency(delta) =>
        AdjustOpacity(delta);
        region := None;
      case NoAction =>
        region := None;
    }
  }
}
