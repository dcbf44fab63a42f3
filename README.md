# IMU visualiser: a Dafny model

This project models the core of a small desktop IMU visualiser. A serial
device streams orientation lines of the form `roll*pitch*yaw`. A reader
thread parses each line into the global angles and raises a `data_ready`
flag. A 10 ms animation tick consumes the flag, and a reset button copies
the current angles into a zero reference. Alongside, a 10 ms video tick
reads a frame from a looping video source. It draws a fixed reference
quadrilateral and an orientation-adjusted copy of it on the frame. It also
warps the frame once by each quadrilateral into an 800x600 top-down view,
and hands the three images to three display labels.

The model consists of these modules:

- `PyStr` (pystr.dfy): the Python string builtins the parser uses. These
  are `str.strip()`, `str.split('*')` and `filter(None, ...)`, with their
  inverse `Join`.
- `Telemetry` (telemetry.dfy): the orientation state as the class
  `ImuState`, whose fields are the module-level globals of
  imuSimulator.py.
  - `ReadLine` is one pass of `read_serial_data`'s loop on an
    already-decoded line.
  - `ReadStream` is the whole loop over a finite stream of lines.
  - `UpdatePlot` is `update_plot`'s flag logic.
  - `ResetImu` is `on_reset_imu`.
  - Calls to `log_message` are recorded as `LogEvent`s in the field `log`.
- `Quadrilateral` (quadrilateral.dfy): `get_default_points` and
  `get_imu_points`, with Python's `int()` as truncation toward zero on
  `real`s.
- `Cube` (cube.dfy): the vertex, face and colour tables of the 3D cube and
  their well-formedness.
- `VideoControls` (video_controls.dfy): `update_all_frames` over a
  `Capture` class, which is a cursor over a sequence of frames.
  - `process_original_frame` is the ordered list of eight segments it draws.
  - The two warps are represented by their source corners, destination
    corners and output size.
- `Scheduler` (scheduler.dfy): `schedule_update`'s guard and its
  rescheduling.

Frames are immutable values, so each of the three views is computed from
its own copy of the frame that was read (`frame.copy()`), and processing
cannot change that frame. Python's `float()` is the function parameter
`parse: string -> Option<real>`, where `None` stands for a raised
exception. The existence of the main window is a boolean parameter.

## Model

| member | source | states |
|---|---|---|
| PyStr.StripStart | imuSimulator.py:113 | the result is a suffix of the input, everything removed is whitespace, and the result does not start with whitespace |
| PyStr.StripEnd | imuSimulator.py:113 | the result is a prefix of the input, everything removed is whitespace, and the result does not end with whitespace |
| PyStr.Strip | imuSimulator.py:113-114 | the result neither starts nor ends with whitespace; it is empty exactly when the line is all whitespace, which is when `if data:` fails |
| PyStr.StripTrims | imuSimulator.py:113 | the stripped line is a contiguous slice of the line with only whitespace before and after it, so stripping removes the surrounding whitespace and nothing else |
| PyStr.Split | imuSimulator.py:116 | there is one more part than separators, no part contains the separator, and joining the parts with the separator gives back the line |
| PyStr.SplitConcat | imuSimulator.py:116 | splitting at a separator splits the two sides independently |
| PyStr.SplitNoSeparator | imuSimulator.py:116 | a string without the separator is a single part |
| PyStr.SplitJoin | imuSimulator.py:116 | splitting undoes joining for separator-free parts |
| PyStr.DropEmpty | imuSimulator.py:116 | `filter(None, ...)` keeps only non-empty parts, each taken from the input, and never adds any |
| PyStr.DropEmptyConcat | imuSimulator.py:116 | filtering distributes over concatenation |
| PyStr.DropEmptyNonEmpty | imuSimulator.py:116 | filtering keeps a list of non-empty parts as it is |
| PyStr.Fields | imuSimulator.py:116 | the fields are non-empty and `*`-free, and there are at most one more of them than separators |
| PyStr.FieldsConcat | imuSimulator.py:116 | the fields on either side of a `*` are counted separately |
| PyStr.LeadingSeparatorIgnored | imuSimulator.py:116 | a leading `*` adds no field |
| PyStr.TrailingSeparatorIgnored | imuSimulator.py:116 | a trailing `*` adds no field |
| PyStr.DoubledSeparatorCollapses | imuSimulator.py:116 | `**` yields the same fields as `*` |
| PyStr.FieldsJoin | imuSimulator.py:116 | non-empty, `*`-free fields joined with `*` are recovered exactly |
| Telemetry.ParsedPrefix | imuSimulator.py:118-120 | the values of the fields that convert, in order, up to the first field that fails, which a shorter result names |
| Telemetry.ParsedPrefixOfThree | imuSimulator.py:118-120 | on three fields, the converted prefix has length 0 to 3, according to which conversion fails first |
| Telemetry.Classify | imuSimulator.py:113-123 | a failing field index is always one of the three axes |
| Telemetry.Assigned | imuSimulator.py:117-120 | at most three axes are assigned per line |
| Telemetry.NotThreeFieldLine | imuSimulator.py:114-117 | a blank line, or one without three fields, is classified as such and assigns nothing |
| Telemetry.ThreeFieldLine | imuSimulator.py:117-121 | a three-field line is published when all three fields convert, and otherwise names the first field that fails |
| Telemetry.Overwrite | imuSimulator.py:118-120 | the first `n` axes take the assigned values and the others keep their old ones |
| Telemetry.StreamStep | imuSimulator.py:110-123 | handling one more line extends the stream's effect, log and publication by that line |
| Telemetry.ImuState.constructor | imuSimulator.py:14-19 | all angles and the zero reference start at 0.0, the flag is clear, and nothing is logged |
| Telemetry.ImuState.ReadLine | imuSimulator.py:113-123 | the outcome is the line's classification, the angles are overwritten by the assigned prefix, the flag is set exactly when the line is published, the zero reference is unchanged, and only a conversion error is logged |
| Telemetry.ImuState.ReadData | imuSimulator.py:116-123 | as `ReadLine`, for a line that is not blank after stripping |
| Telemetry.ImuState.AssignFields | imuSimulator.py:118-123 | the three conversions are assigned in order; the first failure stops the sequence and is logged, and only full success sets the flag |
| Telemetry.ImuState.ReadStream | imuSimulator.py:110-123 | after a finite stream of lines, the angles are the lines' effects applied in order, the flag is set when some line was published, and every conversion error is logged; an error never stops the loop |
| Telemetry.ImuState.UpdatePlot | imuSimulator.py:91-97 | with the flag set, the current angles are handed on once, the flag is cleared and the angles are logged; otherwise nothing happens |
| Telemetry.ImuState.ResetImu | imuSimulator.py:172-177 | the zero reference becomes the current angles, nothing else changes, and the reset is logged |
| Telemetry.PublishedIff | imuSimulator.py:117-121 | a line is published if and only if it has exactly three fields and all three convert |
| Telemetry.PublishedValues | imuSimulator.py:117-121 | a published line sets roll, pitch and yaw to fields 0, 1 and 2 |
| Telemetry.MalformedLineIgnored | imuSimulator.py:113-117 | a blank line, or one without exactly three fields, changes no axis, does not publish and logs nothing |
| Telemetry.BadFieldPartialUpdate | imuSimulator.py:118-123 | after a failed conversion, the axes before it hold the new values and the failing axis and those after it keep their old ones |
| Telemetry.BadFirstFieldChangesNothing | imuSimulator.py:118 | a bad first field changes no axis |
| Telemetry.ThreeFieldsJoined | imuSimulator.py:116-117 | `x*y*z` with non-empty, `*`-free parts has exactly the fields x, y and z |
| Telemetry.OuterSeparatorsIgnored | imuSimulator.py:116-117 | `*x*y*z*` has the same three fields as `x*y*z` |
| Telemetry.DoubledSeparatorIgnored | imuSimulator.py:116-117 | `x**y*z` has the same three fields as `x*y*z` |
| Telemetry.SurroundingSeparatorsIgnored | imuSimulator.py:116 | surrounding a line with `*` changes none of its fields |
| Telemetry.JoinThree | imuSimulator.py:116 | three parts joined with `*` are `x*y*z` |
| Telemetry.ThreeFieldLinePublished | imuSimulator.py:113-121 | a line `x*y*z` whose parts convert is published with exactly those three values |
| Telemetry.PlainLineFields | imuSimulator.py:113-116 | stripping leaves such a line intact, so its fields are its three parts |
| Telemetry.StripNoSurroundingSpace | imuSimulator.py:113 | stripping a string with no surrounding whitespace leaves it unchanged |
| Telemetry.LastWriteWins | imuSimulator.py:117-121 | after a published line, the angles are that line's values, whatever came before |
| Telemetry.MalformedStreamIgnored | imuSimulator.py:110-117 | a stream in which no line has three fields changes no axis, publishes nothing and logs nothing |
| Telemetry.TwoPlotTicks | imuSimulator.py:91-97 | of two animation ticks with no line in between, the second shows nothing and logs nothing; the flag ends clear and the angles and zero reference are unchanged |
| Telemetry.PublishThenPlot | imuSimulator.py:91-97 | a published line is shown by the next tick, and only by that one |
| Quadrilateral.Trunc | imuSimulator.py:239 | `int()` truncates toward zero |
| Quadrilateral.TruncUnique | imuSimulator.py:239 | the truncation bounds determine the integer |
| Quadrilateral.TruncOfInteger | imuSimulator.py:239 | truncating an integer-valued number gives that integer |
| Quadrilateral.TruncMonotone | imuSimulator.py:239 | truncation is monotone |
| Quadrilateral.DefaultPoints | imuSimulator.py:241-246 | the reference region is a trapezoid, narrower at the top, inside the 800x600 frame |
| Quadrilateral.Delta | imuSimulator.py:229-231 | each axis's difference added to the zero reference gives the current angle |
| Quadrilateral.ImuPoints | imuSimulator.py:222-239 | the bottom corners are unchanged; top-left x moves by minus the horizontal shift and top-right x by plus it; both top y's move by minus the pitch shift; each coordinate is truncated toward zero |
| Quadrilateral.IntegerShift | imuSimulator.py:233-239 | whole-pixel shifts move the top corners by exactly that many pixels |
| Quadrilateral.ZeroDeltaIdentity | imuSimulator.py:229-239 | with the angles equal to the zero reference, the quadrilateral comes back unchanged |
| Quadrilateral.RollTenExample | imuSimulator.py:229-246 | a roll of 10 degrees over the reference moves the default top corners to (240, 334) and (580, 334) |
| Quadrilateral.TopEdgeWidth | imuSimulator.py:233-234 | a non-negative shift never narrows the top edge, and a non-positive one never widens it |
| Quadrilateral.FractionalShiftAsymmetric | imuSimulator.py:233-239 | a horizontal shift strictly between 0 and 1 pixel moves top-left by one pixel but leaves top-right in place |
| Quadrilateral.NoClamping | imuSimulator.py:233-246 | the adjusted corners are not clamped to the frame: a roll of 300 puts top-left at x = -50 |
| Cube.ModelWellFormed | imuSimulator.py:22-40 | the eight vertices are distinct corners of the cube [-1, 1]^3, every face names four distinct existing vertices lying in one plane in boundary order, and there is one colour per face |
| Cube.OppositeFacesPartitionCorners | imuSimulator.py:22-37 | faces 0/1, 2/3 and 4/5 are opposite: every corner lies on exactly one face of each pair |
| VideoControls.EdgesAreSides | video_controls.py:29-37 | the drawn corner pairs are the four sides of the quadrilateral: each corner ends two of them and no diagonal is drawn |
| VideoControls.ProcessOriginalFrame | video_controls.py:27-38 | the frame is overlaid with exactly eight segments: the reference sides (0,1), (0,2), (2,3), (1,3) in (0,0,255), then the same sides of the adjusted points in (0,255,0), all of thickness 2 |
| VideoControls.ProcessTopdown | video_controls.py:40-45 | the frame is warped from the reference corners onto (0,0), (0,600), (800,0), (800,600), paired by position, at size 800x600 |
| VideoControls.ProcessTopdownImu | video_controls.py:47-52 | the same warp, from the adjusted corners |
| VideoControls.WarpsShareDestination | video_controls.py:41-51 | both warps use the same destination corners and differ only in their source |
| VideoControls.TickRead | video_controls.py:6-10 | a tick reads the frame at the cursor, or after rewinding at the end of the stream the first frame; it reads nothing only from an empty source |
| VideoControls.Capture.constructor | imuSimulator.py:20 | a new source has its cursor at frame 0 |
| VideoControls.Capture.Read | video_controls.py:6 | `read` succeeds exactly before the end, returning the frame at the cursor and advancing it |
| VideoControls.Capture.Rewind | video_controls.py:8 | rewinding sets the cursor to frame 0 |
| VideoControls.UpdateAllFrames | video_controls.py:5-17 | one read, then on failure a rewind and exactly one more read; on success the overlay, top-down and adjusted top-down views go to the original, top-down and adjusted top-down sinks in that order; otherwise nothing is shown; the result is always 0 |
| VideoControls.EndOfStreamShowsFirstFrame | video_controls.py:6-9 | at the end of a non-empty source, a tick shows frame 0 |
| VideoControls.PlaybackLoops | video_controls.py:5-10 | successive ticks on a non-empty source show every frame in order and loop: the k-th shows frame (pos + k) mod length |
| VideoControls.EmptySourceShowsNothing | video_controls.py:6-10 | an empty source shows nothing, however many ticks run |
| Scheduler.TickImuPoints | imuSimulator.py:250-251 | the adjusted quadrilateral keeps the default bottom corners, and equals the default points when the angles equal the zero reference |
| Scheduler.ScheduleUpdate | imuSimulator.py:248-253 | once the window is gone, nothing is shown, the source is untouched and no update is rescheduled; otherwise one video tick runs on the default and adjusted points and the next call is scheduled after 10 ms; the flag, the angles and the zero reference are never changed |
| Scheduler.TickAfterReset | imuSimulator.py:172-253 | right after a reset, both warps of the next tick use the default points |

## Left out

- The trigonometry of `rotation_matrix`, the rotated-vertices product and `draw_cube` (imuSimulator.py:42-84, 92-94) are left out: they are floating-point numerics and matplotlib drawing. `UpdatePlot` returns the angles it would hand to them.
- Tk and matplotlib window construction, the widgets and `FuncAnimation` (imuSimulator.py:153-220, 256-259) are left out because they are UI. Their timers are represented by which method is called, and by the 10 ms delay `ScheduleUpdate` returns.
- Serial I/O is left out: `ser.readline()`, the UTF-8 decode with errors ignored, `connect_serial_port`, `close_serial_port` and `list_com_ports`. The reader starts from the decoded line. `ReadStream` stands for a connection that delivers a finite list of lines and then closes.
- An exception raised by the serial read itself is left out. Only conversion errors reach the `except` branch in the model.
- The reader thread and the unsynchronised sharing of the globals with the animation and video ticks are left out. The state is updated sequentially, one method call at a time.
- `log_message` (imuSimulator.py:99-104) is left out as UI. Only which event was logged is recorded, not its text, and `on_play_video`'s "Video Started" message is not modelled.
- Python's `float()` is the parameter `parse`, and angles are exact `real`s. IEEE rounding, infinities and NaN are therefore not modelled.
- The OpenCV and PIL numerics are left out:
  - `cv2.line` rasterisation
  - `getPerspectiveTransform` and `warpPerspective`
  - `display_frame`'s resize, colour conversion and PIL image
  These are foreign library calls. The model records the points, colours and sizes passed to them.
- `capture.release()` is left out, and so are the decoding of the video file and the file path it opens.
- `get_imu_points` is only modelled where the program calls it, that is on four corners of integer coordinates. Its tuple and list handling is represented by the `Quad` datatype.
