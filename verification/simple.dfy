/**
 * The simplified tool of main_simple.py: select a region on an overlay,
 * press F10, and the region's screenshot goes to OpenAI as an image. Unlike
 * the full tool there is no OCR, no minimum size and no start guard, so
 * this module keeps its own rules and relates them to module Selection.
 * The simplified tool records `event.x`/`event.y`, which are relative to its
 * overlay window (placed wherever the window manager puts it), and hands the
 * stored area to the screenshot call, which reads it as a screen region.
 */
module SimpleApp {
  import opened PyValue
  import Selection

  /** What `complete_selection` stores: the bounding box of the press and the
      release, whatever their size. Python's `min` on None raises, so a
      release without a press stores nothing. */
  function SimpleRelease(startX: Option<int>, startY: Option<int>, x: int, y: int): (r: Option<Selection.Area>)
    ensures r.None? <==> startX.None? || startY.None?
    ensures r.Some? ==> r.value.width >= 0 && r.value.height >= 0
    ensures r.Some? ==> {r.value.x, r.value.x + r.value.width} == {startX.value, x}
    ensures r.Some? ==> {r.value.y, r.value.y + r.value.height} == {startY.value, y}
  {
    if startX.None? || startY.None? then None
    else Some(Selection.BoundingBox(startX.value, startY.value, x, y))
  }

  /** A click without a drag stores a zero-size area at the click. */
  lemma ClickStoresEmptyArea(x: int, y: int)
    ensures SimpleRelease(Some(x), Some(y), x, y) == Some(Selection.Area(x, y, 0, 0))
  {
  }

  /** Dragging from either corner to the other stores the same area. */
  lemma SimpleReleaseSymmetric(x0: int, y0: int, x1: int, y1: int)
    ensures SimpleRelease(Some(x0), Some(y0), x1, y1) == SimpleRelease(Some(x1), Some(y1), x0, y0)
  {
    var a := SimpleRelease(Some(x0), Some(y0), x1, y1).value;
    Selection.BoundingBoxUnique(x0, y0, x1, y1, a);
  }

  /** For the same press and release numbers, wherever the full tool's rule
      keeps an area the simplified one keeps the same area; it also keeps
      the areas the full rule refuses, those smaller than the minimum and
      those anchored on coordinate 0 (for the simplified tool, the overlay's
      edge rather than the screen's). */
  lemma SimpleKeepsMore(startX: Option<int>, startY: Option<int>, x: int, y: int)
    ensures Selection.DecideRelease(startX, startY, x, y).Selected? ==>
      SimpleRelease(startX, startY, x, y) == Some(Selection.DecideRelease(startX, startY, x, y).area)
    ensures SimpleRelease(Some(0), Some(0), 40, 40) == Some(Selection.Area(0, 0, 40, 40))
    ensures Selection.DecideRelease(Some(0), Some(0), 40, 40) == Selection.NotStarted
  {
  }

  /** `a` moved by `(dx, dy)`. */
  function Shifted(a: Selection.Area, dx: int, dy: int): Selection.Area
  {
    Selection.Area(a.x + dx, a.y + dy, a.width, a.height)
  }

  /** A press at screen point (px, py) and a release at (rx, ry) over an
      overlay whose top-left corner is at (ox, oy) store the screen box of
      the drag moved by the overlay's offset; as the grab reads the stored
      area as a screen region, it is the dragged region exactly when the
      overlay sits at the screen origin. */
  lemma GrabRegionOffset(ox: int, oy: int, px: int, py: int, rx: int, ry: int)
    ensures SimpleRelease(Some(px - ox), Some(py - oy), rx - ox, ry - oy) ==
      Some(Shifted(Selection.BoundingBox(px, py, rx, ry), -ox, -oy))
    ensures (SimpleRelease(Some(px - ox), Some(py - oy), rx - ox, ry - oy) ==
             Some(Selection.BoundingBox(px, py, rx, ry))) <==> ox == 0 && oy == 0
  {
  }

  const Model: string := "gpt-4o-mini"
  const Instruction: string := "You are a helpful assistant and don't explain anything. just given answer."
  const DataUrlPrefix: string := "data:image/jpeg;base64,"

  /** The one user message `send_to_openai` sends: the instruction and the
      screenshot as a data URL. */
  datatype ImageRequest = ImageRequest(model: string, text: string, imageUrl: string)

  /** The request for the stored image, or None where `send_to_openai`
      returns early because the image is None or empty. */
  function ImageRequestFor(image: Option<string>): (r: Option<ImageRequest>)
    ensures r.None? <==> image.None? || image.value == ""
    ensures r.Some? ==> r.value.model == Model && r.value.text == Instruction
    ensures r.Some? ==> DataUrlPrefix <= r.value.imageUrl
  {
    if image.None? || image.value == "" then None
    else
      var url := DataUrlPrefix + image.value;
      assert url[..|DataUrlPrefix|] == DataUrlPrefix;
      Some(ImageRequest(Model, Instruction, url))
  }

  /** The data URL carries the stored image unchanged: dropping the prefix
      gives it back. */
  lemma ImageUrlCarriesImage(image: string)
    requires image != ""
    ensures ImageRequestFor(Some(image)).value.imageUrl[|DataUrlPrefix|..] == image
  {
    assert (DataUrlPrefix + image)[|DataUrlPrefix|..] == image;
  }

  const Placeholder: string := "Answer will be displayed here."

  class ScreenshotApp {
    /** The press's `event.x` and `event.y`, relative to the overlay. */
    var startX: Option<int>
    var startY: Option<int>
    /** `screenshot_area`, in the overlay's coordinates. */
    var area: Option<Selection.Area>
    /** `base64_image`. */
    var image: Option<string>
    var overlayOpen: bool
    /** The answer box and the system clipboard. */
    var answer: string
    var clipboard: string

    /** `clip` is whatever the system clipboard holds when the tool starts. */
    constructor (clip: string)
      ensures area == None && image == None && startX == None && startY == None
      ensures !overlayOpen && answer == Placeholder && clipboard == clip
    {
      area := None;
      image := None;
      startX := None;
      startY := None;
      overlayOpen := false;
      answer := Placeholder;
      clipboard := clip;
    }

    /** `select_area`: open the overlay and forget the previous press. */
    method SelectArea()
      modifies this
      ensures overlayOpen && startX == None && startY == None
      ensures area == old(area) && image == old(image)
      ensures answer == old(answer) && clipboard == old(clipboard)
    {
      overlayOpen := true;
      startX := None;
      startY := None;
    }

    /** `start_selection`: `x` and `y` are the press's overlay-relative
        `event.x` and `event.y`. */
    method StartSelection(x: int, y: int)
      modifies this
      ensures startX == Some(x) && startY == Some(y)
      ensures area == old(area) && image == old(image) && overlayOpen == old(overlayOpen)
      ensures answer == old(answer) && clipboard == old(clipboard)
    {
      startX := Some(x);
      startY := Some(y);
    }

    /** `complete_selection`: store the area and close the overlay; when the
        handler raises (no press) nothing changes. */
    method CompleteSelection(x: int, y: int)
      modifies this
      ensures var r := SimpleRelease(old(startX), old(startY), x, y);
        (r.Some? ==> area == r && !overlayOpen) &&
        (r.None? ==> area == old(area) && overlayOpen == old(overlayOpen))
      ensures startX == old(startX) && startY == old(startY) && image == old(image)
      ensures answer == old(answer) && clipboard == old(clipboard)
    {
      var r := SimpleRelease(startX, startY, x, y);
      if r.Some? {
        area := r;
        overlayOpen := false;
      }
    }

    /** `send_to_openai`. `create` is the chat call. A returned answer goes
        to the answer box and the clipboard; an exception is only printed.
        The request sent, if any, is returned. */
    method SendToOpenAi(create: ImageRequest -> Call<string>) returns (sent: Option<ImageRequest>)
      modifies this
      ensures sent == ImageRequestFor(old(image))
      ensures sent.Some? && create(sent.value).Returned? ==>
        answer == create(sent.value).value && clipboard == create(sent.value).value
      ensures !(sent.Some? && create(sent.value).Returned?) ==>
        answer == old(answer) && clipboard == old(clipboard)
      ensures area == old(area) && image == old(image) && startX == old(startX) && startY == old(startY)
      ensures overlayOpen == old(overlayOpen)
    {
      sent := ImageRequestFor(image);
      if sent.None? {
        return;
      }
      var reply := create(sent.value);
      if reply.Returned? {
        answer := reply.value;
        clipboard := reply.value;
      }
    }

    /** `capture_screenshot`, the keyboard listener's callback. `capture`
        stands for taking the screenshot of the region (the whole screen for
        None), saving it and base64-encoding it; it returns the encoding or
        raises. Only F10 does anything. */
    method CaptureScreenshot(key: Selection.Key, capture: Option<Selection.Area> -> Call<string>,
                             create: ImageRequest -> Call<string>)
      returns (sent: Option<ImageRequest>)
      modifies this
      ensures key != Selection.F10 ==>
        sent == None && image == old(image) && answer == old(answer) && clipboard == old(clipboard)
      ensures key == Selection.F10 && capture(old(area)).Raised? ==>
        sent == None && image == old(image) && answer == old(answer) && clipboard == old(clipboard)
      ensures key == Selection.F10 && capture(old(area)).Returned? ==>
        image == Some(capture(old(area)).value) && sent == ImageRequestFor(image)
      ensures sent.Some? && create(sent.value).Returned? ==>
        answer == create(sent.value).value && clipboard == create(sent.value).value
      ensures !(sent.Some? && create(sent.value).Returned?) ==>
        answer == old(answer) && clipboard == old(clipboard)
      ensures area == old(area) && startX == old(startX) && startY == old(startY)
      ensures overlayOpen == old(overlayOpen)
    {
      sent := None;
      if key != Selection.F10 {
        return;
      }
      var shot := capture(area);
      if shot.Raised? {
        return;
      }
      image := Some(shot.value);
      sent := SendToOpenAi(create);
    }
  }
}
