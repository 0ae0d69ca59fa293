// The older media viewer: which player a media type gets, the image zoom and
// pan state, and the `m:ss` rendering of audio times.
module MediaViewer {
  import opened Common

  datatype Kind = Image | Video | Audio | Document

  predicate IsImage(t: string) { StartsWith(t, "image/") || t == "image" || t == "sticker" }
  predicate IsVideo(t: string) { StartsWith(t, "video/") || t == "video" }
  predicate IsAudio(t: string) { StartsWith(t, "audio/") || t == "audio" }
  /** `isDocument`: none of the other three. */
  predicate IsDocument(t: string) { !IsImage(t) && !IsVideo(t) && !IsAudio(t) }

  /** The player chosen for a message's media type. */
  function KindOf(t: string): (k: Kind)
    ensures k == Image <==> IsImage(t)
    ensures k == Video <==> IsVideo(t)
    ensures k == Audio <==> IsAudio(t)
    ensures k == Document <==> IsDocument(t)
  {
    ExactlyOneKind(t);
    if IsImage(t) then Image else if IsVideo(t) then Video else if IsAudio(t) then Audio else Document
  }

  /** Exactly one of the four flags holds for any type string. */
  lemma ExactlyOneKind(t: string)
    ensures !(IsImage(t) && IsVideo(t)) && !(IsImage(t) && IsAudio(t)) && !(IsVideo(t) && IsAudio(t))
    ensures IsImage(t) || IsVideo(t) || IsAudio(t) || IsDocument(t)
  {
    if StartsWith(t, "image/") { assert t[0] == 'i'; }
    if StartsWith(t, "video/") { assert t[0] == 'v'; }
    if StartsWith(t, "audio/") { assert t[0] == 'a'; }
  }

  const ZOOM_STEP: real := 0.25
  const MAX_ZOOM: real := 3.0
  const MIN_ZOOM: real := 0.5

  /** `Math.min(prev + 0.25, 3)`. */
  function ZoomedIn(z: real): (r: real)
    ensures r <= MAX_ZOOM
    ensures z <= MAX_ZOOM ==> z <= r
  {
    if z + ZOOM_STEP < MAX_ZOOM then z + ZOOM_STEP else MAX_ZOOM
  }

  /** `Math.max(prev - 0.25, 0.5)`. */
  function ZoomedOut(z: real): (r: real)
    ensures z >= MIN_ZOOM ==> MIN_ZOOM <= r <= z
  {
    if z - ZOOM_STEP > MIN_ZOOM then z - ZOOM_STEP else MIN_ZOOM
  }

  /** Zooming in from the bounds' interior steps by a quarter, and the bounds are reached exactly. */
  lemma ZoomSteps(z: real)
    requires MIN_ZOOM <= z <= MAX_ZOOM
    ensures ZoomedIn(z) == if z + ZOOM_STEP <= MAX_ZOOM then z + ZOOM_STEP else MAX_ZOOM
    ensures ZoomedOut(z) == if z - ZOOM_STEP >= MIN_ZOOM then z - ZOOM_STEP else MIN_ZOOM
    ensures ZoomedOut(ZoomedIn(z)) <= z && (z + ZOOM_STEP <= MAX_ZOOM ==> ZoomedOut(ZoomedIn(z)) == z)
  {
  }

  datatype Point = Point(x: real, y: real)

  class Viewer {
    var zoom: real
    var isDragging: bool
    var position: Point
    var dragStart: Point

    /** The zoom never leaves [0.5, 3]. */
    predicate Valid()
      reads this
    {
      MIN_ZOOM <= zoom <= MAX_ZOOM
    }

    constructor ()
      ensures Valid() && zoom == 1.0 && !isDragging && position == Point(0.0, 0.0)
    {
      zoom := 1.0;
      isDragging := false;
      position := Point(0.0, 0.0);
      dragStart := Point(0.0, 0.0);
    }

    method ZoomIn()
      requires Valid()
      modifies this
      ensures Valid() && zoom == ZoomedIn(old(zoom)) && zoom >= old(zoom)
      ensures position == old(position) && isDragging == old(isDragging) && dragStart == old(dragStart)
    {
      zoom := ZoomedIn(zoom);
    }

    method ZoomOut()
      requires Valid()
      modifies this
      ensures Valid() && zoom == ZoomedOut(old(zoom)) && zoom <= old(zoom)
      ensures position == old(position) && isDragging == old(isDragging) && dragStart == old(dragStart)
    {
      zoom := ZoomedOut(zoom);
    }

    /** `handleResetZoom`: back to 100% and centred. */
    method ResetZoom()
      modifies this
      ensures Valid() && zoom == 1.0 && position == Point(0.0, 0.0)
      ensures isDragging == old(isDragging) && dragStart == old(dragStart)
    {
      zoom := 1.0;
      position := Point(0.0, 0.0);
    }

    /** `handleWheel`: scrolling up (negative `deltaY`) zooms in, anything else zooms out. */
    method Wheel(deltaY: real)
      requires Valid()
      modifies this
      ensures Valid()
      ensures zoom == if deltaY < 0.0 then ZoomedIn(old(zoom)) else ZoomedOut(old(zoom))
      ensures position == old(position) && isDragging == old(isDragging)
    {
      if deltaY < 0.0 {
        ZoomIn();
      } else {
        ZoomOut();
      }
    }

    /** `handleMouseDown`: a drag starts only on a zoomed-in image, remembering the grab offset. */
    method MouseDown(client: Point)
      modifies this
      ensures zoom > 1.0 ==> isDragging && dragStart == Point(client.x - old(position).x, client.y - old(position).y)
      ensures zoom <= 1.0 ==> isDragging == old(isDragging) && dragStart == old(dragStart)
      ensures zoom == old(zoom) && position == old(position)
    {
      if zoom > 1.0 {
        isDragging := true;
        dragStart := Point(client.x - position.x, client.y - position.y);
      }
    }

    /** `handleMouseMove`: while dragging a zoomed image, the image follows the pointer. */
    method MouseMove(client: Point)
      modifies this
      ensures isDragging && zoom > 1.0 ==> position == Point(client.x - dragStart.x, client.y - dragStart.y)
      ensures !(isDragging && zoom > 1.0) ==> position == old(position)
      ensures zoom == old(zoom) && isDragging == old(isDragging) && dragStart == old(dragStart)
    {
      if isDragging && zoom > 1.0 {
        position := Point(client.x - dragStart.x, client.y - dragStart.y);
      }
    }

    method MouseUp()
      modifies this
      ensures !isDragging && zoom == old(zoom) && position == old(position) && dragStart == old(dragStart)
    {
      isDragging := false;
    }
  }

  /** A grab and a move with no zoom change puts the grabbed point under the pointer. */
  lemma DragFollowsPointer(position: Point, grab: Point, pointer: Point)
    ensures var start := Point(grab.x - position.x, grab.y - position.y);
      var moved := Point(pointer.x - start.x, pointer.y - start.y);
      moved.x - position.x == pointer.x - grab.x && moved.y - position.y == pointer.y - grab.y
  {
  }

  /** `seconds.toString().padStart(2, '0')`. */
  function PadTwo(s: string): (r: string)
    ensures |s| >= 2 ==> r == s
    ensures |s| < 2 ==> r == "0" + s
  {
    if |s| < 2 then "0" + s else s
  }

  /** `formatTime` for a non-negative time in seconds. */
  function FormatTime(time: real): string
    requires time >= 0.0
  {
    var minutes := (time / 60.0).Floor;
    var seconds := (time - 60.0 * minutes as real).Floor;
    NatToString(minutes as nat) + ":" + PadTwo(NatToString(seconds as nat))
  }

  /** Whole minutes and seconds of a time: `60 * m + s` is the time rounded down, with `s < 60`. */
  lemma MinutesSeconds(time: real)
    requires time >= 0.0
    ensures var m := (time / 60.0).Floor; var s := (time - 60.0 * m as real).Floor;
      m >= 0 && 0 <= s < 60 && 60 * m + s == time.Floor
  {
    var m := (time / 60.0).Floor;
    assert m as real <= time / 60.0 < m as real + 1.0;
    var rest := time - 60.0 * m as real;
    assert 0.0 <= rest < 60.0;
    var s := rest.Floor;
    assert s as real <= rest < s as real + 1.0;
    assert (60 * m + s) as real <= time < (60 * m + s) as real + 1.0;
  }

  /**
   * The rendering reads back: the part before the colon is the minutes, the
   * two digits after it the seconds (below 60), and together they give the
   * time rounded down to a whole second.
   */
  lemma FormatTimeReadsBack(time: real)
    requires time >= 0.0
    ensures var r := FormatTime(time);
      && |r| >= 4 && r[|r| - 3] == ':'
      && AllDigits(r[..|r| - 3]) && AllDigits(r[|r| - 2..])
      && DigitsValue(r[|r| - 2..]) < 60
      && 60 * DigitsValue(r[..|r| - 3]) + DigitsValue(r[|r| - 2..]) == time.Floor
  {
    MinutesSeconds(time);
    var m := (time / 60.0).Floor;
    var s := (time - 60.0 * m as real).Floor;
    var ms, tail := NatToString(m as nat), PadTwo(NatToString(s as nat));
    var r := FormatTime(time);
    assert r == ms + ":" + tail;
    NatToStringValue(m as nat);
    PaddedSeconds(s as nat);
    assert r[..|r| - 3] == ms;
    assert r[|r| - 2..] == tail;
  }

  /** Seconds below a minute are padded to exactly two digits that read back as the seconds. */
  lemma PaddedSeconds(s: nat)
    requires s < 60
    ensures var tail := PadTwo(NatToString(s));
      |tail| == 2 && AllDigits(tail) && DigitsValue(tail) == s
  {
    var ss := NatToString(s);
    var tail := PadTwo(ss);
    NatToStringValue(s);
    assert |ss| <= 2;
    if |ss| < 2 {
      assert tail[..1] == "0";
      assert DigitsValue(tail) == DigitsValue(tail[..1]) * 10 + DigitValue(tail[1]);
      assert tail[1..] == ss;
    }
  }
}
