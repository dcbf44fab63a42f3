/**
 * One video tick (video_controls.py): read a frame, rewinding once at the
 * end of the stream, and produce the three views: the original frame with
 * both quadrilaterals drawn on it, and the perspective warps of the frame
 * by the reference and by the adjusted quadrilateral.  OpenCV's drawing
 * and warping are represented by what is passed to them.
 */
module VideoControls {
  import opened Wrappers
  import opened Quadrilateral

  /** A decoded video frame; its pixels are never inspected. */
  datatype Frame = Frame(pixels: seq<int>)

  datatype Colour = Bgr(b: int, g: int, r: int)

  /** The reference quadrilateral is drawn in red, the adjusted one in green (BGR order). */
  const ReferenceColour := Bgr(0, 0, 255)
  const ImuColour := Bgr(0, 255, 0)
  const LineThickness: nat := 2

  /** One `cv2.line` call. */
  datatype Segment = Segment(from: Point, to: Point, colour: Colour, thickness: nat)

  /** The output size of both warps. */
  const OutputWidth: nat := 800
  const OutputHeight: nat := 600

  /** The destination corners of both warps, in the list order [top_left, bottom_left, top_right, bottom_right]. */
  const DstPoints: seq<Point> := [Point(0, 0), Point(0, 600), Point(800, 0), Point(800, 600)]

  /** The corner index pairs `process_original_frame` joins, in drawing order. */
  const EdgeOrder: seq<(nat, nat)> := [(0, 1), (0, 2), (2, 3), (1, 3)]

  datatype Image =
    | Annotated(base: Frame, segments: seq<Segment>)
    | Warped(base: Frame, src: seq<Point>, dst: seq<Point>, width: nat, height: nat)

  /** The three image labels the views are shown in. */
  datatype Sink = OriginalView | TopDownView | ImuTopDownView

  /** One `display_frame` call. */
  datatype Display = Display(sink: Sink, image: Image)

  /** `segs` are the four sides of `q`, in `EdgeOrder`, in `colour`. */
  predicate DrawsSides(segs: seq<Segment>, q: Quad, colour: Colour) {
    && |segs| == 4
    && forall k :: 0 <= k < 4 ==>
         segs[k] == Segment(q.Corners()[EdgeOrder[k].0], q.Corners()[EdgeOrder[k].1], colour, LineThickness)
  }

  /** `img` is `frame` with the sides of `src` and then those of `imu` drawn on it. */
  predicate IsOverlay(img: Image, frame: Frame, src: Quad, imu: Quad) {
    && img.Annotated? && img.base == frame && |img.segments| == 8
    && DrawsSides(img.segments[..4], src, ReferenceColour)
    && DrawsSides(img.segments[4..], imu, ImuColour)
  }

  /** Left corners (list positions 0 and 1) go to x = 0, right ones to x = width; top ones (0 and 2) to y = 0, bottom ones to y = height. */
  predicate MapsToOutputCorners(dst: seq<Point>, width: nat, height: nat) {
    && |dst| == 4
    && forall k :: 0 <= k < 4 ==>
         dst[k] == Point(if k < 2 then 0 else width, if k % 2 == 0 then 0 else height)
  }

  /** How many of `edges` have `c` as an end. */
  function EdgesAt(edges: seq<(nat, nat)>, c: nat): nat {
    if edges == [] then 0
    else (if edges[0].0 == c || edges[0].1 == c then 1 else 0) + EdgesAt(edges[1..], c)
  }

  /**
   * The edges drawn for a quadrilateral are its four sides: each corner is
   * an end of exactly two of them and neither diagonal is drawn.
   */
  lemma EdgesAreSides()
    ensures forall k :: 0 <= k < 4 ==> EdgeOrder[k].0 < EdgeOrder[k].1 < 4
    ensures forall k :: 0 <= k < 4 ==> EdgeOrder[k] != (0, 3) && EdgeOrder[k] != (1, 2)
    ensures forall c :: 0 <= c < 4 ==> EdgesAt(EdgeOrder, c) == 2
  {
    var e := EdgeOrder;
    assert e[1..] == [(0, 2), (2, 3), (1, 3)];
    assert e[1..][1..] == [(2, 3), (1, 3)];
    assert e[1..][1..][1..] == [(1, 3)];
  }

  /**
   * `process_original_frame`: eight `cv2.line` calls on a copy of the frame,
   * first the sides of the reference quadrilateral, then those of the
   * adjusted one.
   */
  method ProcessOriginalFrame(frame: Frame, src: Quad, imu: Quad) returns (img: Image)
    ensures IsOverlay(img, frame, src, imu)
  {
    var s := src.Corners();
    var m := imu.Corners();
    var segs: seq<Segment> := [];
    segs := segs + [Segment(s[0], s[1], ReferenceColour, LineThickness)];
    segs := segs + [Segment(s[0], s[2], ReferenceColour, LineThickness)];
    segs := segs + [Segment(s[2], s[3], ReferenceColour, LineThickness)];
    segs := segs + [Segment(s[1], s[3], ReferenceColour, LineThickness)];
    segs := segs + [Segment(m[0], m[1], ImuColour, LineThickness)];
    segs := segs + [Segment(m[0], m[2], ImuColour, LineThickness)];
    segs := segs + [Segment(m[2], m[3], ImuColour, LineThickness)];
    segs := segs + [Segment(m[1], m[3], ImuColour, LineThickness)];
    img := Annotated(frame, segs);
    assert img.segments[4..][1] == segs[5];
  }

  /** `process_topdown`: warp the frame so that the reference quadrilateral fills the 800x600 output. */
  function ProcessTopdown(frame: Frame, src: Quad): (img: Image)
    ensures img.Warped? && img.base == frame && img.src == src.Corners()
    ensures img.width == 800 && img.height == 600
    ensures MapsToOutputCorners(img.dst, img.width, img.height)
  {
    Warped(frame, src.Corners(), DstPoints, OutputWidth, OutputHeight)
  }

  /** `process_topdown_imu`: the same warp for the adjusted quadrilateral. */
  function ProcessTopdownImu(frame: Frame, imuSrc: Quad): (img: Image)
    ensures img.Warped? && img.base == frame && img.src == imuSrc.Corners()
    ensures img.width == 800 && img.height == 600
    ensures MapsToOutputCorners(img.dst, img.width, img.height)
  {
    Warped(frame, imuSrc.Corners(), DstPoints, OutputWidth, OutputHeight)
  }

  /** Both warps send the corners to the same destination rectangle; only their sources differ. */
  lemma WarpsShareDestination(frame: Frame, src: Quad, imuSrc: Quad)
    ensures ProcessTopdown(frame, src).dst == ProcessTopdownImu(frame, imuSrc).dst
    ensures ProcessTopdown(frame, src) == ProcessTopdownImu(frame, src)
  {
  }

  /** The three `display_frame` calls of one tick that read `frame`. */
  predicate ShowsFrame(shown: seq<Display>, frame: Frame, src: Quad, imu: Quad) {
    && |shown| == 3
    && shown[0].sink == OriginalView && IsOverlay(shown[0].image, frame, src, imu)
    && shown[1] == Display(TopDownView, ProcessTopdown(frame, src))
    && shown[2] == Display(ImuTopDownView, ProcessTopdownImu(frame, imu))
  }

  /**
   * What one tick reads from a source of `frames` positioned at `pos`, and
   * where it leaves the cursor: the next frame; at the end of the stream,
   * the first frame after rewinding; nothing only when there are no frames.
   */
  function TickRead(frames: seq<Frame>, pos: nat): (r: (Option<Frame>, nat))
    requires pos <= |frames|
    ensures r.1 <= |frames|
    ensures r.0.None? <==> frames == []
    ensures r.0.None? ==> r.1 == 0
    ensures r.0.Some? ==> 0 < r.1 && r.0.value == frames[r.1 - 1] && r.0.value == frames[pos % |frames|]
  {
    if pos < |frames| then (Some(frames[pos]), pos + 1)
    else if frames != [] then (Some(frames[0]), 1)
    else (None, 0)
  }

  /** A video source (`cv2.VideoCapture`) as a cursor over its frames. */
  class Capture {
    const frames: seq<Frame>
    var pos: nat

    ghost predicate Valid()
      reads this
    {
      pos <= |frames|
    }

    constructor (frames: seq<Frame>)
      ensures Valid() && this.frames == frames && pos == 0
    {
      this.frames := frames;
      pos := 0;
    }

    /** `cap.read()`: the frame at the cursor, advancing it, or failure at the end. */
    method Read() returns (ret: bool, frame: Option<Frame>)
      requires Valid()
      modifies this
      ensures Valid()
      ensures ret == (old(pos) < |frames|) && ret == frame.Some?
      ensures ret ==> frame.value == frames[old(pos)] && pos == old(pos) + 1
      ensures !ret ==> pos == old(pos)
    {
      if pos < |frames| {
        ret, frame := true, Some(frames[pos]);
        pos := pos + 1;
      } else {
        ret, frame := false, None;
      }
    }

    /** `cap.set(cv2.CAP_PROP_POS_FRAMES, 0)`. */
    method Rewind()
      modifies this
      ensures Valid() && pos == 0
    {
      pos := 0;
    }
  }

  /**
   * `update_all_frames`: read once; on failure rewind and read once more;
   * only a successful read produces the three views.  Always returns 0.
   */
  method UpdateAllFrames(cap: Capture, src: Quad, imuSrc: Quad) returns (shown: seq<Display>, status: int)
    requires cap.Valid()
    modifies cap
    ensures cap.Valid()
    ensures status == 0
    ensures var (frame, next) := TickRead(cap.frames, old(cap.pos));
      && cap.pos == next
      && (frame.None? ==> shown == [])
      && (frame.Some? ==> ShowsFrame(shown, frame.value, src, imuSrc))
  {
    var ret, frame := cap.Read();
    if !ret {
      cap.Rewind();
      ret, frame := cap.Read();
    }
    shown := [];
    if ret {
      var processed1 := ProcessOriginalFrame(frame.value, src, imuSrc);
      var processed2 := ProcessTopdown(frame.value, src);
      var processed3 := ProcessTopdownImu(frame.value, imuSrc);
      shown := shown + [Display(OriginalView, processed1)];
      shown := shown + [Display(TopDownView, processed2)];
      shown := shown + [Display(ImuTopDownView, processed3)];
    }
    status := 0;
  }

  // ---------------------------------------------------------------------
  // Playback over many ticks

  /** The frames shown by `n` consecutive ticks starting at cursor `pos`. */
  function Playback(frames: seq<Frame>, pos: nat, n: nat): seq<Frame>
    requires pos <= |frames|
    decreases n
  {
    if n == 0 then []
    else
      var (f, next) := TickRead(frames, pos);
      (if f.Some? then [f.value] else []) + Playback(frames, next, n - 1)
  }

  /** At the end of a non-empty stream a tick shows the first frame. */
  lemma EndOfStreamShowsFirstFrame(frames: seq<Frame>)
    requires frames != []
    ensures TickRead(frames, |frames|) == (Some(frames[0]), 1)
  {
  }

  lemma ModUnique(a: int, n: int, q: int, r: int)
    requires n > 0 && a == q * n + r && 0 <= r < n
    ensures a % n == r
  {
    var d := q - a / n;
    assert a == (a / n) * n + a % n;
    assert d * n == a % n - r;
    if d > 0 {
      MulAtLeast(d, n);
    } else if d < 0 {
      MulAtLeast(-d, n);
    }
  }

  lemma MulAtLeast(d: int, n: int)
    requires d >= 1 && n > 0
    ensures d * n >= n
  {
    assert d * n == (d - 1) * n + n;
    if d > 1 {
      MulAtLeast(d - 1, n);
    }
  }

  lemma ModShift(n: nat, k: nat)
    requires n > 0
    ensures (n + k) % n == k % n
  {
    var q, r := k / n, k % n;
    assert n + k == (q + 1) * n + r;
    ModUnique(n + k, n, q + 1, r);
  }

  /**
   * Playback never stops and loops: from any cursor position, the k-th
   * tick shows frame (pos + k) mod |frames|.
   */
  lemma {:induction false} PlaybackLoops(frames: seq<Frame>, pos: nat, n: nat)
    requires frames != [] && pos <= |frames|
    ensures |Playback(frames, pos, n)| == n
    ensures forall k :: 0 <= k < n ==> Playback(frames, pos, n)[k] == frames[(pos + k) % |frames|]
    decreases n
  {
    if n > 0 {
      var (f, next) := TickRead(frames, pos);
      PlaybackLoops(frames, next, n - 1);
      var rest := Playback(frames, next, n - 1);
      assert Playback(frames, pos, n) == [f.value] + rest;
      forall k | 0 < k < n ensures Playback(frames, pos, n)[k] == frames[(pos + k) % |frames|] {
        assert Playback(frames, pos, n)[k] == rest[k - 1];
        if pos == |frames| {
          ModShift(|frames|, k);
        }
      }
    }
  }

  /** An empty source shows nothing, however many ticks run. */
  lemma {:induction false} EmptySourceShowsNothing(n: nat)
    ensures Playback([], 0, n) == []
  {
    if n > 0 {
      EmptySourceShowsNothing(n - 1);
    }
  }
}
