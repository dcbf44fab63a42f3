/**
 * The video cadence (`schedule_update` in imuSimulator.py): while the main
 * window exists, recompute both quadrilaterals from the current orientation,
 * run one video tick and ask to be called again after 10 ms.  The window's
 * existence is a parameter; Tk's timer is represented by the returned delay.
 */
module Scheduler {
  import opened Wrappers
  import opened Telemetry
  import opened Quadrilateral
  import opened VideoControls

  /** The delay passed to `root.after`, in milliseconds. */
  const RescheduleDelayMs: nat := 10

  /** `get_imu_points` is called with its default ratio. */
  const DefaultRatio: real := 1.0

  /** The adjusted quadrilateral a video tick uses: it depends on the angles and the zero reference only. */
  function TickImuPoints(current: Angles, zero: Angles): (q: Quad)
    ensures q.bottomLeft == DefaultPoints().bottomLeft && q.bottomRight == DefaultPoints().bottomRight
    ensures current == zero ==> q == DefaultPoints()
  {
    ZeroDeltaIdentity(DefaultPoints(), DefaultRatio, current);
    ImuPoints(DefaultPoints(), DefaultRatio, current, zero)
  }

  /**
   * One `schedule_update` call.  Once the window is gone it does nothing and
   * does not reschedule.  It neither reads nor changes `data_ready`: the
   * orientation state is not modified and what is shown depends only on the
   * current angles and the zero reference.
   */
  method ScheduleUpdate(windowExists: bool, st: ImuState, cap: Capture)
    returns (rescheduleAfter: Option<nat>, shown: seq<Display>)
    requires cap.Valid()
    modifies cap
    ensures cap.Valid()
    ensures !windowExists ==> rescheduleAfter == None && shown == [] && cap.pos == old(cap.pos)
    ensures windowExists ==> rescheduleAfter == Some(RescheduleDelayMs)
    ensures windowExists ==>
      var (frame, next) := TickRead(cap.frames, old(cap.pos));
      && cap.pos == next
      && (frame.None? ==> shown == [])
      && (frame.Some? ==> ShowsFrame(shown, frame.value, DefaultPoints(), TickImuPoints(st.Current(), st.Zero())))
    ensures st.dataReady == old(st.dataReady) && st.Current() == old(st.Current()) && st.Zero() == old(st.Zero())
  {
    rescheduleAfter, shown := None, [];
    if windowExists {
      var srcPoints := DefaultPoints();
      var imuSrcPoints := TickImuPoints(st.Current(), st.Zero());
      var output;
      shown, output := UpdateAllFrames(cap, srcPoints, imuSrcPoints);
      rescheduleAfter := Some(RescheduleDelayMs);
    }
  }

  /** Right after `on_reset_imu`, a video tick draws the adjusted quadrilateral exactly on the reference one. */
  method TickAfterReset(st: ImuState, cap: Capture) returns (shown: seq<Display>)
    requires cap.Valid() && cap.frames != []
    modifies st, cap
    ensures |shown| == 3 && shown[1].image.Warped? && shown[2].image.Warped?
    ensures shown[1].image.src == shown[2].image.src == DefaultPoints().Corners()
  {
    st.ResetImu();
    var next;
    next, shown := ScheduleUpdate(true, st, cap);
  }
}
