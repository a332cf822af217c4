/** The annotation tab (`AnnotationModule`, annotation.py:12-763): the image
  * list, the boxes of the current image and their modified flag, the viewport,
  * the pointer gestures that pan or draw, saving and the guard against
  * switching images with unsaved changes. */
module Annotation {
  import opened Wrappers
  import opened Numeric
  import opened Text
  import opened LabelCodec
  import opened LabelPaths
  import opened Viewport
  import ClassTable

  /** An integer point (`QPoint`, or an image-pixel tuple). */
  datatype Point = Point(x: int, y: int)

  /** The rectangle being drawn (`current_box`), in image pixels. */
  datatype Rect = Rect(x1: int, y1: int, x2: int, y2: int)

  /** One row of the image list (`image_list_data[row]`). The label types are
    * kept as a set: the source stores `list(set)`, whose order is arbitrary. */
  datatype ImageRecord = ImageRecord(
    path: Path, name: string, hasAnnotation: bool, annotCount: int,
    labelTypes: set<string>, txtPath: Option<Path>)

  /** The three answers of the unsaved-changes question. */
  datatype Reply = Yes | No | Cancel

  datatype MouseButton = LeftButton | RightButton | MiddleButton | OtherButton

  /** Pixel size of an image that `cv2.imread` can read. */
  datatype Dims = Dims(w: int, h: int)

  /** What the disk and the widget look like to the module: the readable text
    * files and their lines, the existing directories, the readable images and
    * their sizes, and the size of the canvas label. */
  datatype Env = Env(
    files: map<Path, seq<string>>, dirs: set<Path>, images: map<Path, Dims>,
    viewW: int, viewH: int)
  {
    predicate Valid()
    {
      viewW >= 0 && viewH >= 0 && forall p :: p in images ==> images[p].w > 0 && images[p].h > 0
    }
  }

  /** The image point under screen position `(x, y)`, clamped into the image. */
  function ImagePointAt(v: View, x: real, y: real, w: int, h: int): (p: Point)
    requires v.scale > 0.0 && w >= 0 && h >= 0
    ensures 0 <= p.x <= w && 0 <= p.y <= h
    ensures var ix := ScreenToImg(x, v.scale, v.offsetX);
      (0 <= ix <= w ==> p.x == ix) && (ix < 0 ==> p.x == 0) && (w < ix ==> p.x == w)
    ensures var iy := ScreenToImg(y, v.scale, v.offsetY);
      (0 <= iy <= h ==> p.y == iy) && (iy < 0 ==> p.y == 0) && (h < iy ==> p.y == h)
  {
    Point(ClampInt(ScreenToImg(x, v.scale, v.offsetX), 0, w),
          ClampInt(ScreenToImg(y, v.scale, v.offsetY), 0, h))
  }

  /** The rectangle spanned by two corners, normalised so that `x1 <= x2` and
    * `y1 <= y2`: the smallest rectangle holding both points. */
  function Span(a: Point, b: Point): (r: Rect)
    ensures r.x1 <= r.x2 && r.y1 <= r.y2
    ensures r.x1 <= a.x <= r.x2 && r.x1 <= b.x <= r.x2
    ensures r.y1 <= a.y <= r.y2 && r.y1 <= b.y <= r.y2
    ensures (r.x1 == a.x || r.x1 == b.x) && (r.x2 == a.x || r.x2 == b.x)
    ensures (r.y1 == a.y || r.y1 == b.y) && (r.y2 == a.y || r.y2 == b.y)
  {
    Rect(MinInt(a.x, b.x), MinInt(a.y, b.y), MaxInt(a.x, b.x), MaxInt(a.y, b.y))
  }

  /** A drawn rectangle is kept only when it is more than two pixels wide and high. */
  predicate BigEnough(r: Rect)
  {
    r.x2 - r.x1 > 2 && r.y2 - r.y1 > 2
  }

  /** A drag that starts and ends inside the image and is kept gives a box
    * inside the image, in corner order, that a save and reload returns unchanged. */
  lemma DrawnBoxFits(start: Point, end: Point, w: int, h: int, cid: int, classes: seq<string>)
    requires 0 <= start.x <= w && 0 <= start.y <= h && 0 <= end.x <= w && 0 <= end.y <= h
    requires 0 <= cid < |classes|
    requires BigEnough(Span(start, end))
    ensures var r := Span(start, end);
      var b := Box(cid, classes[cid], r.x1, r.y1, r.x2, r.y2);
      0 <= b.x1 < b.x2 <= w && 0 <= b.y1 < b.y2 <= h
      && DecodeFields(EncodeBox(b, w, h), w, h, classes) == Some(b)
  {
    var r := Span(start, end);
    var b := Box(cid, classes[cid], r.x1, r.y1, r.x2, r.y2);
    EncodeDecodeNamed(b, w, h, classes);
  }

  /** The offset after one pan step: moved by the pointer's displacement. */
  function PanStep(offset: Point, last: Point, p: Point): (r: Point)
    ensures r.x - offset.x == p.x - last.x && r.y - offset.y == p.y - last.y
  {
    Point(offset.x + (p.x - last.x), offset.y + (p.y - last.y))
  }

  /** The offset after a drag through the pointer positions `ps`, from `last`. */
  function PanPath(offset: Point, last: Point, ps: seq<Point>): Point
    decreases |ps|
  {
    if ps == [] then offset else PanPath(PanStep(offset, last, ps[0]), ps[0], ps[1..])
  }

  /** However the pointer wanders during a drag, the image ends up moved by the
    * displacement between the press position and the final position. */
  lemma {:induction false} PanFollowsPointer(offset: Point, last: Point, ps: seq<Point>)
    requires ps != []
    ensures var r := PanPath(offset, last, ps);
      r.x - offset.x == ps[|ps| - 1].x - last.x && r.y - offset.y == ps[|ps| - 1].y - last.y
    decreases |ps|
  {
    if |ps| > 1 {
      PanFollowsPointer(PanStep(offset, last, ps[0]), ps[0], ps[1..]);
    }
  }

  /** The row `row` of `records` with its box count set to `n`. */
  function WithCount(records: seq<ImageRecord>, row: int, n: int): (r: seq<ImageRecord>)
    requires -1 <= row < |records|
    ensures |r| == |records|
    ensures forall k :: 0 <= k < |r| && k != row ==> r[k] == records[k]
    ensures row >= 0 ==> r[row] == records[row].(annotCount := n)
  {
    if row >= 0 then records[row := records[row].(annotCount := n)] else records
  }

  /** `seq` with the element at `i` removed (`del boxes[i]`). */
  function RemoveAt<T>(s: seq<T>, i: int): (r: seq<T>)
    requires 0 <= i < |s|
    ensures |r| == |s| - 1
    ensures forall k :: 0 <= k < i ==> r[k] == s[k]
    ensures forall k :: i <= k < |r| ==> r[k] == s[k + 1]
  {
    s[..i] + s[i + 1..]
  }

  /** The class names a label file contributes to the list's "types" column:
    * the name of the first token of each line, until a line whose token is not
    * an integer or whose id has no name ends the scan. */
  function LabelTypes(lines: seq<string>, classes: seq<string>): set<string>
  {
    if lines == [] then {}
    else
      match LineClassName(lines[0], classes)
      case None => {}
      case Some(n) => {n} + LabelTypes(lines[1..], classes)
  }

  /** Every line up to and including line `k` has a class name, so the scan
    * of the types reaches line `k`. */
  predicate NamedUpTo(lines: seq<string>, classes: seq<string>, k: int)
    requires k < |lines|
  {
    forall j :: 0 <= j <= k ==> LineClassName(lines[j], classes).Some?
  }

  /** Reaching line `k` of a file is reaching line `k - 1` of its tail. */
  lemma NamedUpToTail(lines: seq<string>, classes: seq<string>, k: nat)
    requires 0 < k < |lines|
    ensures NamedUpTo(lines, classes, k) <==> LineClassName(lines[0], classes).Some? && NamedUpTo(lines[1..], classes, k - 1)
  {
    var tail := lines[1..];
    if NamedUpTo(lines, classes, k) {
      forall j | 0 <= j <= k - 1 ensures LineClassName(tail[j], classes).Some? {
        assert tail[j] == lines[j + 1];
      }
    }
    if LineClassName(lines[0], classes).Some? && NamedUpTo(tail, classes, k - 1) {
      forall j | 1 <= j <= k ensures LineClassName(lines[j], classes).Some? {
        assert lines[j] == tail[j - 1];
      }
    }
  }

  /** A line the scan reaches contributes its name. */
  lemma {:induction false} NamedListed(lines: seq<string>, classes: seq<string>, k: nat)
    requires k < |lines| && NamedUpTo(lines, classes, k)
    ensures LineClassName(lines[k], classes).value in LabelTypes(lines, classes)
    decreases k
  {
    assert LineClassName(lines[0], classes).Some?;
    if k > 0 {
      var tail := lines[1..];
      NamedUpToTail(lines, classes, k);
      NamedListed(tail, classes, k - 1);
      assert tail[k - 1] == lines[k];
    }
  }

  /** A listed name comes from a line the scan reaches. */
  lemma {:induction false} ListedNamed(lines: seq<string>, classes: seq<string>, n: string)
    requires n in LabelTypes(lines, classes)
    ensures exists k :: 0 <= k < |lines| && NamedUpTo(lines, classes, k) && LineClassName(lines[k], classes) == Some(n)
    decreases |lines|
  {
    var first := LineClassName(lines[0], classes);
    if n == first.value {
      assert NamedUpTo(lines, classes, 0);
    } else {
      var tail := lines[1..];
      ListedNamed(tail, classes, n);
      var k :| 0 <= k < |tail| && NamedUpTo(tail, classes, k) && LineClassName(tail[k], classes) == Some(n);
      assert lines[k + 1] == tail[k];
      NamedUpToTail(lines, classes, k + 1);
    }
  }

  /** The types are exactly the names of the lines the scan reaches: a name is
    * listed if and only if some line before the first failing one has it. */
  lemma LabelTypesExact(lines: seq<string>, classes: seq<string>)
    ensures forall n :: n in LabelTypes(lines, classes) <==>
      exists k :: 0 <= k < |lines| && NamedUpTo(lines, classes, k) && LineClassName(lines[k], classes) == Some(n)
  {
    forall n ensures n in LabelTypes(lines, classes) <==>
      exists k :: 0 <= k < |lines| && NamedUpTo(lines, classes, k) && LineClassName(lines[k], classes) == Some(n)
    {
      if n in LabelTypes(lines, classes) {
        ListedNamed(lines, classes, n);
      }
      if exists k :: 0 <= k < |lines| && NamedUpTo(lines, classes, k) && LineClassName(lines[k], classes) == Some(n) {
        var k :| 0 <= k < |lines| && NamedUpTo(lines, classes, k) && LineClassName(lines[k], classes) == Some(n);
        NamedListed(lines, classes, k);
      }
    }
  }

  /** `int(line.split()[0])` named through the class table, or `None` where
    * the source raises. */
  function LineClassName(line: string, classes: seq<string>): Option<string>
  {
    var parts := Split(line);
    if parts == [] then None
    else match ParseInt(parts[0])
      case None => None
      case Some(cid) => ClassName(cid, classes)
  }

  /** The boxes `load_image_data` reads for an image of `w` x `h` pixels from
    * the row's label file, when it has one that can be read. */
  function LabelBoxes(t: Option<Path>, files: map<Path, seq<string>>, w: int, h: int, classes: seq<string>): (r: seq<Box>)
    ensures t.None? || t.value !in files ==> r == []
    ensures t.Some? && t.value in files ==> r == DecodeAll(files[t.value], w, h, classes)
  {
    if t.Some? && t.value in files then DecodeAll(files[t.value], w, h, classes) else []
  }

  /** The list row `load_dataset` builds for one image file. */
  function ScanRecord(img: Path, files: map<Path, seq<string>>, classes: seq<string>): (r: ImageRecord)
    requires IsFilePath(img)
    ensures r.path == img && r.name == Name(img)
    ensures r.txtPath == ScanLabelPath(img, files.Keys)
    ensures r.hasAnnotation <==> r.txtPath.Some?
    ensures r.txtPath.None? ==> r.annotCount == 0 && r.labelTypes == {}
    ensures r.txtPath.Some? ==>
      r.txtPath.value in files
      && r.annotCount == |ClassTable.NonBlankStripped(files[r.txtPath.value])|
      && r.labelTypes == LabelTypes(ClassTable.NonBlankStripped(files[r.txtPath.value]), classes)
  {
    match ScanLabelPath(img, files.Keys)
    case None => ImageRecord(img, Name(img), false, 0, {}, None)
    case Some(t) =>
      var lines := ClassTable.NonBlankStripped(files[t]);
      ImageRecord(img, Name(img), true, |lines|, LabelTypes(lines, classes), Some(t))
  }

  /** The parsing loop of `load_image_data` on the lines of a label file, for
    * an image of `w` x `h` pixels: each line's box is appended in turn until a
    * line raises, which ends the read. */
  method ReadLabelBoxes(lines: seq<string>, w: int, h: int, classes: seq<string>) returns (boxes: seq<Box>)
    ensures boxes == DecodeAll(lines, w, h, classes)
  {
    boxes := [];
    var i := 0;
    while i < |lines|
      invariant 0 <= i <= |lines|
      invariant boxes + DecodeAll(lines[i..], w, h, classes) == DecodeAll(lines, w, h, classes)
    {
      var r := DecodeLine(lines[i], w, h, classes);
      DecodeStep(boxes, lines, i, w, h, classes);
      if r.Raised? {
        break;
      }
      if r.Decoded? {
        boxes := boxes + [r.box];
      }
      i := i + 1;
    }
    assert i == |lines| ==> lines[i..] == [];
  }

  /** The list `load_dataset` builds: one row per image file, in order, each
    * naming an image file and, when it has one, a label file. */
  function ScanAll(images: seq<Path>, files: map<Path, seq<string>>, classes: seq<string>): (r: seq<ImageRecord>)
    requires forall k :: 0 <= k < |images| ==> IsFilePath(images[k])
    ensures |r| == |images|
    ensures forall k :: 0 <= k < |images| ==> r[k] == ScanRecord(images[k], files, classes)
    ensures forall k :: 0 <= k < |r| ==> IsFilePath(r[k].path) && (r[k].txtPath.Some? ==> IsFilePath(r[k].txtPath.value))
  {
    seq(|images|, k requires 0 <= k < |images| => ScanRecord(images[k], files, classes))
  }

  /** The loop of `load_dataset`. */
  method ScanImages(images: seq<Path>, files: map<Path, seq<string>>, classes: seq<string>) returns (built: seq<ImageRecord>)
    requires forall k :: 0 <= k < |images| ==> IsFilePath(images[k])
    ensures built == ScanAll(images, files, classes)
  {
    built := [];
    var i := 0;
    while i < |images|
      invariant 0 <= i <= |images|
      invariant |built| == i
      invariant forall k :: 0 <= k < i ==> built[k] == ScanRecord(images[k], files, classes)
    {
      built := built + [ScanRecord(images[i], files, classes)];
      i := i + 1;
    }
  }

  class AnnotationModule {
    var drawing: bool
    var panning: bool
    var startPoint: Option<Point>
    var currentBox: Option<Rect>
    var lastMouse: Point
    var view: View
    var boxes: seq<Box>
    var isModified: bool
    var hasPixmap: bool
    var imgW: int
    var imgH: int
    var currentImagePath: Option<Path>
    var records: seq<ImageRecord>
    var lastSelectedRow: int
    var classes: seq<string>

    ghost predicate Valid()
      reads this
    {
      view.scale > 0.0
      && -1 <= lastSelectedRow < |records|
      && (hasPixmap ==> imgW > 0 && imgH > 0)
      && (boxes != [] ==> hasPixmap)
      && (currentImagePath.Some? ==> IsFilePath(currentImagePath.value))
      && (forall k :: 0 <= k < |records| ==> IsFilePath(records[k].path))
      && (forall k :: 0 <= k < |records| && records[k].txtPath.Some? ==> IsFilePath(records[k].txtPath.value))
    }

    /** The drawing and panning state is as it was. */
    twostate predicate SameGesture()
      reads this
    {
      drawing == old(drawing) && panning == old(panning) && startPoint == old(startPoint)
      && currentBox == old(currentBox) && lastMouse == old(lastMouse)
    }

    /** The image, its boxes, the modified flag and the view are as they were. */
    twostate predicate SameImage()
      reads this
    {
      view == old(view) && boxes == old(boxes) && isModified == old(isModified)
      && hasPixmap == old(hasPixmap) && imgW == old(imgW) && imgH == old(imgH)
    }

    /** The image list, the selected row, the current path and the classes are as they were. */
    twostate predicate SameSession()
      reads this
    {
      records == old(records) && lastSelectedRow == old(lastSelectedRow)
      && currentImagePath == old(currentImagePath) && classes == old(classes)
    }

    /** `__init__`: nothing loaded, browse mode, scale one, no offset. */
    constructor ()
      ensures Valid()
      ensures !drawing && !panning && startPoint.None? && currentBox.None?
      ensures boxes == [] && !isModified && !hasPixmap
      ensures view == View(1.0, 0, 0)
      ensures currentImagePath.None? && records == [] && lastSelectedRow == -1 && classes == []
    {
      drawing, panning, startPoint, currentBox := false, false, None, None;
      lastMouse := Point(0, 0);
      view := View(1.0, 0, 0);
      boxes, isModified, hasPixmap := [], false, false;
      imgW, imgH := 0, 0;
      currentImagePath, records, lastSelectedRow, classes := None, [], -1, [];
    }

    /** `reset_view_fit`. */
    method ResetViewFit(viewW: int, viewH: int)
      requires Valid() && viewW >= 0 && viewH >= 0
      modifies this`view
      ensures Valid()
      ensures !hasPixmap ==> view == old(view)
      ensures hasPixmap ==> view == FitView(old(view), viewW, viewH, imgW, imgH)
    {
      if !hasPixmap {
        return;
      }
      view := FitView(view, viewW, viewH, imgW, imgH);
    }

    /** `on_wheel_event`. */
    method OnWheel(angle: int, mouseX: real, mouseY: real)
      requires Valid()
      modifies this
      ensures Valid() && SameGesture() && SameSession()
      ensures boxes == old(boxes) && isModified == old(isModified)
      ensures hasPixmap == old(hasPixmap) && imgW == old(imgW) && imgH == old(imgH)
      ensures !hasPixmap ==> view == old(view)
      ensures hasPixmap ==> view == ZoomView(old(view), angle, mouseX, mouseY)
    {
      if !hasPixmap {
        return;
      }
      view := ZoomView(view, angle, mouseX, mouseY);
    }

    /** `on_mouse_press`: right or middle starts a pan in any mode; left starts
      * a rectangle at the clamped image point in draw mode and a pan otherwise. */
    method OnMousePress(button: MouseButton, x: real, y: real)
      requires Valid()
      modifies this
      ensures Valid() && SameImage() && SameSession() && drawing == old(drawing)
      ensures !hasPixmap || button == OtherButton ==> SameGesture()
      ensures hasPixmap && (button == RightButton || button == MiddleButton || (button == LeftButton && !drawing)) ==>
        panning && lastMouse == Point(QRound(x), QRound(y))
        && startPoint == old(startPoint) && currentBox == old(currentBox)
      ensures hasPixmap && button == LeftButton && drawing ==>
        var p := ImagePointAt(view, x, y, imgW, imgH);
        startPoint == Some(p) && currentBox == Some(Rect(p.x, p.y, p.x, p.y))
        && panning == old(panning) && lastMouse == old(lastMouse)
    {
      if !hasPixmap {
        return;
      }
      if button == RightButton || button == MiddleButton {
        panning := true;
        lastMouse := Point(QRound(x), QRound(y));
        return;
      }
      if button == LeftButton {
        if drawing {
          var p := ImagePointAt(view, x, y, imgW, imgH);
          startPoint := Some(p);
          currentBox := Some(Rect(p.x, p.y, p.x, p.y));
        } else {
          panning := true;
          lastMouse := Point(QRound(x), QRound(y));
        }
      }
    }

    /** `on_mouse_move`: a pan moves the offset by the pointer's displacement;
      * a drawing stretches the rectangle from its start to the clamped point. */
    method OnMouseMove(x: real, y: real)
      requires Valid()
      modifies this
      ensures Valid() && SameSession()
      ensures boxes == old(boxes) && isModified == old(isModified)
      ensures hasPixmap == old(hasPixmap) && imgW == old(imgW) && imgH == old(imgH)
      ensures drawing == old(drawing) && panning == old(panning) && startPoint == old(startPoint)
      ensures !hasPixmap || (!panning && !(drawing && startPoint.Some?)) ==> SameGesture() && view == old(view)
      ensures hasPixmap && panning ==>
        var p := Point(QRound(x), QRound(y));
        var o := PanStep(Point(old(view).offsetX, old(view).offsetY), old(lastMouse), p);
        view == old(view).(offsetX := o.x, offsetY := o.y) && lastMouse == p && currentBox == old(currentBox)
      ensures hasPixmap && !panning && drawing && startPoint.Some? ==>
        view == old(view) && lastMouse == old(lastMouse)
        && currentBox == Some(Span(startPoint.value, ImagePointAt(view, x, y, imgW, imgH)))
    {
      if !hasPixmap {
        return;
      }
      if panning {
        var p := Point(QRound(x), QRound(y));
        var o := PanStep(Point(view.offsetX, view.offsetY), lastMouse, p);
        view := view.(offsetX := o.x, offsetY := o.y);
        lastMouse := p;
        return;
      }
      if drawing && startPoint.Some? {
        var p := ImagePointAt(view, x, y, imgW, imgH);
        currentBox := Some(Span(startPoint.value, p));
      }
    }

    /** `cancel_drawing`: back to browse mode with no rectangle in progress. */
    method CancelDrawing()
      modifies this
      ensures SameImage() && SameSession()
      ensures !drawing && startPoint.None? && currentBox.None?
      ensures panning == old(panning) && lastMouse == old(lastMouse)
      ensures old(Valid()) ==> Valid()
    {
      drawing := false;
      startPoint := None;
      currentBox := None;
    }

    /** `on_mouse_release`: a pan ends; a drawing ends, adding a box when a class
      * is selected and the rectangle is more than two pixels each way. The
      * selected entry of the class combo is `classIndex`; -1 means none. */
    method OnMouseRelease(x: real, y: real, classIndex: int)
      requires Valid() && -1 <= classIndex < |classes|
      modifies this
      ensures Valid()
      ensures view == old(view) && hasPixmap == old(hasPixmap) && imgW == old(imgW) && imgH == old(imgH)
      ensures lastMouse == old(lastMouse) && lastSelectedRow == old(lastSelectedRow)
      ensures currentImagePath == old(currentImagePath) && classes == old(classes)
      ensures !hasPixmap || (!old(panning) && !(old(drawing) && old(startPoint).Some?)) ==>
        SameGesture() && SameImage() && SameSession()
      ensures hasPixmap && old(panning) ==>
        !panning && drawing == old(drawing) && startPoint == old(startPoint) && currentBox == old(currentBox)
        && SameImage() && SameSession()
      ensures hasPixmap && !old(panning) && old(drawing) && old(startPoint).Some? ==>
        !drawing && startPoint.None? && currentBox.None? && !panning
        && var r := Span(old(startPoint).value, ImagePointAt(view, x, y, imgW, imgH));
        if classIndex != -1 && BigEnough(r) then
          boxes == old(boxes) + [Box(classIndex, classes[classIndex], r.x1, r.y1, r.x2, r.y2)]
          && isModified && records == WithCount(old(records), lastSelectedRow, |boxes|)
        else
          boxes == old(boxes) && isModified == old(isModified) && records == old(records)
    {
      if !hasPixmap {
        return;
      }
      if panning {
        panning := false;
        return;
      }
      if drawing && startPoint.Some? {
        if classIndex == -1 {
          CancelDrawing();
          return;
        }
        var p := ImagePointAt(view, x, y, imgW, imgH);
        var r := Span(startPoint.value, p);
        if BigEnough(r) {
          boxes := boxes + [Box(classIndex, classes[classIndex], r.x1, r.y1, r.x2, r.y2)];
          isModified := true;
          records := WithCount(records, lastSelectedRow, |boxes|);
        }
        CancelDrawing();
      }
    }

    /** `enable_draw_box`: without an image the button is unchecked and nothing
      * changes; otherwise draw mode follows the button. */
    method EnableDrawBox(checked: bool)
      requires Valid()
      modifies this
      ensures Valid() && SameImage() && SameSession()
      ensures panning == old(panning) && startPoint == old(startPoint)
      ensures currentBox == old(currentBox) && lastMouse == old(lastMouse)
      ensures drawing == if hasPixmap then checked else old(drawing)
    {
      if !hasPixmap {
        return;
      }
      drawing := checked;
    }

    /** `delete_selected_box` with the table's current row `row`. */
    method DeleteSelectedBox(row: int)
      requires Valid()
      modifies this
      ensures Valid() && SameGesture()
      ensures view == old(view) && hasPixmap == old(hasPixmap) && imgW == old(imgW) && imgH == old(imgH)
      ensures lastSelectedRow == old(lastSelectedRow) && currentImagePath == old(currentImagePath)
      ensures classes == old(classes)
      ensures !(0 <= row < |old(boxes)|) ==> SameImage() && SameSession()
      ensures 0 <= row < |old(boxes)| ==>
        boxes == RemoveAt(old(boxes), row) && isModified
        && records == WithCount(old(records), lastSelectedRow, |boxes|)
    {
      if 0 <= row < |boxes| {
        boxes := RemoveAt(boxes, row);
        isModified := true;
        records := WithCount(records, lastSelectedRow, |boxes|);
      }
    }

    /** `clear_all_boxes`; `confirmed` is the answer to the confirmation question. */
    method ClearAllBoxes(confirmed: bool)
      requires Valid()
      modifies this
      ensures Valid() && SameGesture()
      ensures view == old(view) && hasPixmap == old(hasPixmap) && imgW == old(imgW) && imgH == old(imgH)
      ensures lastSelectedRow == old(lastSelectedRow) && currentImagePath == old(currentImagePath)
      ensures classes == old(classes)
      ensures old(boxes) == [] || !confirmed ==> SameImage() && SameSession()
      ensures old(boxes) != [] && confirmed ==>
        boxes == [] && isModified
        && |records| == |old(records)|
        && (forall k :: 0 <= k < |records| && k != lastSelectedRow ==> records[k] == old(records)[k])
        && (lastSelectedRow >= 0 ==>
              records[lastSelectedRow] == old(records)[lastSelectedRow].(annotCount := 0, hasAnnotation := false))
    {
      if boxes == [] || !confirmed {
        return;
      }
      boxes := [];
      isModified := true;
      if lastSelectedRow >= 0 {
        records := records[lastSelectedRow := records[lastSelectedRow].(annotCount := 0, hasAnnotation := false)];
      }
    }

    /** Where `save_annotation` writes the current image's labels. */
    function SaveTarget(env: Env): (r: Path)
      reads this
      requires Valid() && currentImagePath.Some?
      ensures lastSelectedRow >= 0 && records[lastSelectedRow].txtPath.Some? ==> r == records[lastSelectedRow].txtPath.value
      ensures IsFilePath(r)
    {
      var recorded := if lastSelectedRow >= 0 then records[lastSelectedRow].txtPath else None;
      SaveLabelPath(currentImagePath.value, recorded, env.dirs)
    }

    /** The label fields `save_annotation` writes, one per box, in order. */
    function SavedFields(): (r: seq<LabelFields>)
      reads this
      requires Valid()
      ensures |r| == |boxes|
      ensures boxes != [] ==> r == EncodeAll(boxes, imgW, imgH)
    {
      if boxes == [] then [] else EncodeAll(boxes, imgW, imgH)
    }

    /** Whether `save_annotation` can write: the target's directory exists. */
    predicate SaveWrites(env: Env)
      reads this
      requires Valid() && currentImagePath.Some?
    {
      Parent(SaveTarget(env)) in env.dirs
    }

    /** The image list after `save_annotation`: a successful save records the
      * target and whether any box is left in the selected row, and leaves
      * every other row as it was; a failed save changes no row. */
    function RecordsAfterSave(env: Env): (r: seq<ImageRecord>)
      reads this
      requires Valid() && currentImagePath.Some?
      ensures |r| == |records|
      ensures forall k :: 0 <= k < |r| && k != lastSelectedRow ==> r[k] == records[k]
      ensures SaveWrites(env) && lastSelectedRow >= 0 ==>
        r[lastSelectedRow] == records[lastSelectedRow].(txtPath := Some(SaveTarget(env)), hasAnnotation := |boxes| > 0)
      ensures !SaveWrites(env) ==> r == records
    {
      if SaveWrites(env) && lastSelectedRow >= 0 then
        records[lastSelectedRow := records[lastSelectedRow].(txtPath := Some(SaveTarget(env)), hasAnnotation := |boxes| > 0)]
      else records
    }

    /** `save_annotation`. The file is written when its directory exists; then
      * the modified flag is cleared and the row records the label path and
      * whether it holds any box. `written` is the file and its fields. */
    method SaveAnnotation(env: Env) returns (written: Option<(Path, seq<LabelFields>)>)
      requires Valid()
      modifies this
      ensures Valid() && SameGesture()
      ensures view == old(view) && boxes == old(boxes) && hasPixmap == old(hasPixmap)
      ensures imgW == old(imgW) && imgH == old(imgH)
      ensures lastSelectedRow == old(lastSelectedRow) && currentImagePath == old(currentImagePath)
      ensures classes == old(classes)
      ensures old(currentImagePath).None? ==> written.None? && SameImage() && SameSession()
      ensures old(currentImagePath).Some? ==>
        records == old(RecordsAfterSave(env))
        && (if old(SaveWrites(env)) then written == Some((old(SaveTarget(env)), old(SavedFields()))) && !isModified
            else written.None? && isModified == old(isModified))
    {
      if currentImagePath.None? {
        return None;
      }
      var target := SaveTarget(env);
      if Parent(target) !in env.dirs {
        return None;
      }
      written := Some((target, SavedFields()));
      isModified := false;
      if lastSelectedRow >= 0 {
        records := records[lastSelectedRow := records[lastSelectedRow].(txtPath := Some(target), hasAnnotation := |boxes| > 0)];
      }
    }

    /** `check_unsaved_changes`: without modifications the switch goes ahead;
      * otherwise Yes saves and goes ahead (even if the save fails), No goes
      * ahead, Cancel stays. `written` is the file the save writes, if any. */
    method CheckUnsavedChanges(reply: Reply, env: Env) returns (proceed: bool, written: Option<(Path, seq<LabelFields>)>)
      requires Valid()
      modifies this
      ensures Valid() && SameGesture()
      ensures proceed <==> !old(isModified) || reply != Cancel
      ensures view == old(view) && boxes == old(boxes) && hasPixmap == old(hasPixmap)
      ensures imgW == old(imgW) && imgH == old(imgH) && classes == old(classes)
      ensures currentImagePath == old(currentImagePath) && lastSelectedRow == old(lastSelectedRow)
      ensures !(old(isModified) && reply == Yes && old(currentImagePath).Some?) ==> isModified == old(isModified) && records == old(records)
      ensures old(isModified) && reply == Yes && old(currentImagePath).Some? ==>
        records == old(RecordsAfterSave(env)) && isModified == !old(SaveWrites(env))
      ensures written.Some? <==> old(isModified) && reply == Yes && old(currentImagePath).Some? && old(SaveWrites(env))
      ensures written.Some? ==> written.value == (old(SaveTarget(env)), old(SavedFields()))
    {
      if !isModified {
        return true, None;
      }
      match reply
      case Yes =>
        written := SaveAnnotation(env);
        return true, written;
      case No =>
        return true, None;
      case Cancel =>
        return false, None;
    }

    /** `load_image_data`. The row and the current path move first; when the
      * image cannot be read nothing else changes, so the previous image's boxes
      * stay on screen under the new path. Otherwise the boxes are read from the
      * row's label file, the modified flag is cleared and the view is fitted. */
    method LoadImageData(row: int, env: Env)
      requires Valid() && env.Valid() && row < |records|
      modifies this
      ensures Valid() && records == old(records) && classes == old(classes)
      ensures drawing == old(drawing) && panning == old(panning) && startPoint == old(startPoint)
      ensures lastMouse == old(lastMouse)
      ensures row < 0 ==> SameGesture() && SameImage() && SameSession()
      ensures row >= 0 ==> lastSelectedRow == row && currentImagePath == Some(records[row].path)
      ensures row >= 0 && records[row].path !in env.images ==> SameGesture() && SameImage()
      ensures row >= 0 && records[row].path in env.images ==>
        var d := env.images[records[row].path];
        var t := records[row].txtPath;
        hasPixmap && imgW == d.w && imgH == d.h && !isModified && currentBox.None?
        && boxes == LabelBoxes(t, env.files, d.w, d.h, classes)
        && view == FitView(old(view), env.viewW, env.viewH, d.w, d.h)
    {
      if row < 0 {
        return;
      }
      lastSelectedRow := row;
      var data := records[row];
      currentImagePath := Some(data.path);
      if data.path !in env.images {
        return;
      }
      ShowImage(env.images[data.path], data.txtPath, env);
    }

    /** The part of `load_image_data` after a successful read of a `d`-sized
      * image: its boxes are read from the label file `t`, the rectangle in
      * progress is dropped, the modified flag is cleared and the view is fitted. */
    method ShowImage(d: Dims, t: Option<Path>, env: Env)
      requires Valid() && env.Valid() && d.w > 0 && d.h > 0
      modifies this`hasPixmap, this`imgW, this`imgH, this`boxes, this`currentBox, this`isModified, this`view
      ensures Valid() && currentBox.None?
      ensures hasPixmap && imgW == d.w && imgH == d.h && !isModified
      ensures boxes == LabelBoxes(t, env.files, d.w, d.h, classes)
      ensures view == FitView(old(view), env.viewW, env.viewH, d.w, d.h)
    {
      currentBox := None;
      isModified := false;
      hasPixmap := true;
      imgW, imgH := d.w, d.h;
      ResetViewFit(env.viewW, env.viewH);
      boxes := [];
      if t.Some? && t.value in env.files {
        boxes := ReadLabelBoxes(env.files[t.value], d.w, d.h, classes);
      }
    }

    /** `on_image_list_clicked` on row `row`. `reply` answers the unsaved-changes
      * question if it is asked. `selected` is the row the list shows selected
      * afterwards: the clicked one, or on Cancel the previous one (-1: none).
      * `written` is the file a Yes answer saves before the switch, if any. */
    method OnImageListClicked(row: int, reply: Reply, env: Env) returns (selected: int, written: Option<(Path, seq<LabelFields>)>)
      requires Valid() && env.Valid() && 0 <= row < |records|
      modifies this
      ensures Valid()
      ensures written.Some? <==>
        row != old(lastSelectedRow) && old(isModified) && reply == Yes && old(currentImagePath).Some? && old(SaveWrites(env))
      ensures written.Some? ==> written.value == (old(SaveTarget(env)), old(SavedFields()))
      ensures row == old(lastSelectedRow) ==> selected == row && SameGesture() && SameImage() && SameSession()
      ensures row != old(lastSelectedRow) && old(isModified) && reply == Cancel ==>
        selected == old(lastSelectedRow) && SameGesture() && SameImage() && SameSession()
      ensures row != old(lastSelectedRow) && (!old(isModified) || reply != Cancel) ==>
        selected == row && lastSelectedRow == row && currentImagePath == Some(old(records)[row].path)
        && classes == old(classes) && records[row] == old(records)[row]
        && records == (if old(isModified) && reply == Yes && old(currentImagePath).Some? then old(RecordsAfterSave(env)) else old(records))
      ensures row != old(lastSelectedRow) && (!old(isModified) || reply != Cancel) && old(records)[row].path in env.images ==>
        var d := env.images[old(records)[row].path];
        hasPixmap && imgW == d.w && imgH == d.h && !isModified && currentBox.None?
        && drawing == old(drawing) && panning == old(panning) && startPoint == old(startPoint) && lastMouse == old(lastMouse)
        && boxes == LabelBoxes(old(records)[row].txtPath, env.files, d.w, d.h, classes)
        && view == FitView(old(view), env.viewW, env.viewH, d.w, d.h)
      ensures row != old(lastSelectedRow) && (!old(isModified) || reply != Cancel) && old(records)[row].path !in env.images ==>
        SameGesture() && view == old(view) && boxes == old(boxes) && hasPixmap == old(hasPixmap)
        && imgW == old(imgW) && imgH == old(imgH)
        && isModified == (if old(isModified) && reply == Yes && old(currentImagePath).Some? then !old(SaveWrites(env)) else old(isModified))
    {
      if row == lastSelectedRow {
        return row, None;
      }
      var proceed: bool;
      proceed, written := CheckUnsavedChanges(reply, env);
      if !proceed {
        return lastSelectedRow, written;
      }
      LoadImageData(row, env);
      return row, written;
    }

    /** `load_dataset` over the image files the directory scan found, in order. */
    method LoadDataset(images: seq<Path>, env: Env)
      requires Valid() && forall k :: 0 <= k < |images| ==> IsFilePath(images[k])
      modifies this`records, this`lastSelectedRow, this`currentImagePath, this`boxes, this`isModified, this`hasPixmap
      ensures Valid()
      ensures records == ScanAll(images, env.files, classes)
      ensures lastSelectedRow == -1 && currentImagePath.None?
      ensures boxes == [] && !isModified && !hasPixmap
    {
      lastSelectedRow := -1;
      currentImagePath := None;
      boxes := [];
      isModified := false;
      hasPixmap := false;
      records := ScanImages(images, env.files, classes);
    }

    /** `load_classes`: the table is replaced unless the load raises. */
    method LoadClasses(name: string, f: ClassTable.ClassFile)
      requires Valid()
      modifies this`classes
      ensures Valid()
      ensures var loaded := ClassTable.LoadClasses(name, f, old(classes));
        classes == if loaded.Some? then loaded.value else old(classes)
    {
      var loaded := ClassTable.LoadClasses(name, f, classes);
      if loaded.Some? {
        classes := loaded.value;
      }
    }
  }
}
