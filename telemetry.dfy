/**
 * The orientation state of the IMU visualiser and the per-line step of its
 * serial reader (imuSimulator.py).  The module-level globals `roll`, `pitch`,
 * `yaw`, `data_ready` and `roll_zero`, `pitch_zero`, `yaw_zero` become the
 * fields of `ImuState`; `read_serial_data`'s handling of one decoded line,
 * `update_plot`'s flag logic and `on_reset_imu` become its methods.
 *
 * Python's `float()` is the parameter `parse`: a partial conversion that
 * either yields a number or raises (None).
 */
module Telemetry {
  import opened Wrappers
  import opened PyStr

  /** One orientation sample in degrees. */
  datatype Angles = Angles(roll: real, pitch: real, yaw: real) {
    /** Axis 0 is roll, 1 is pitch, 2 is yaw: the order of the fields on a line. */
    function Axis(k: nat): real
      requires k < 3
    {
      if k == 0 then roll else if k == 1 then pitch else yaw
    }
  }

  /** What the reader did with one line. */
  datatype LineOutcome =
    | Blank                       // nothing left after stripping: `if data:` fails
    | WrongFieldCount(count: nat) // `len(values) != 3`: silently dropped
    | BadField(index: nat)        // `float(values[index])` raised; the error is logged
    | Published(sample: Angles)   // all three assigned and `data_ready` set

  /** The diagnostic lines `log_message` receives from the modelled operations. */
  datatype LogEvent =
    | SerialError(index: nat)     // "Serial error: ..." from the reader's except branch
    | AnglesShown(angles: Angles) // "Roll: .., Pitch: .., Yaw: .." from update_plot
    | ImuReset(angles: Angles)    // "IMU Reset to ..." from on_reset_imu

  /** The values of the longest prefix of `fields` that `parse` accepts. */
  function ParsedPrefix(fields: seq<string>, parse: string -> Option<real>): (vs: seq<real>)
    ensures |vs| <= |fields|
    ensures forall i :: 0 <= i < |vs| ==> parse(fields[i]) == Some(vs[i])
    ensures |vs| < |fields| ==> parse(fields[|vs|]) == None
  {
    if fields == [] then []
    else match parse(fields[0])
      case None => []
      case Some(v) => [v] + ParsedPrefix(fields[1..], parse)
  }

  /** `ParsedPrefix` on three fields, unfolded. */
  lemma ParsedPrefixOfThree(fields: seq<string>, parse: string -> Option<real>)
    requires |fields| == 3
    ensures ParsedPrefix(fields, parse) ==
      if parse(fields[0]).None? then []
      else if parse(fields[1]).None? then [parse(fields[0]).value]
      else if parse(fields[2]).None? then [parse(fields[0]).value, parse(fields[1]).value]
      else [parse(fields[0]).value, parse(fields[1]).value, parse(fields[2]).value]
  {
    assert fields[1..][1..] == fields[2..];
    assert fields[2..][1..] == [];
  }

  /** The fields `read_serial_data` counts: the non-empty `*`-separated parts of the stripped line. */
  function LineFields(line: string): seq<string> {
    Fields(Strip(line))
  }

  /** How the reader classifies `line`. */
  function Classify(line: string, parse: string -> Option<real>): (o: LineOutcome)
    ensures o.BadField? ==> o.index < 3
  {
    var data := Strip(line);
    if data == [] then Blank
    else
      var values := Fields(data);
      if |values| != 3 then WrongFieldCount(|values|)
      else
        var vs := ParsedPrefix(values, parse);
        if |vs| < 3 then BadField(|vs|) else Published(Angles(vs[0], vs[1], vs[2]))
  }

  /**
   * The values the reader assigns, in axis order, before it finishes or
   * raises: nothing unless the line has exactly three fields, then the
   * values of the fields that convert, up to the first that does not.
   */
  function Assigned(line: string, parse: string -> Option<real>): (vs: seq<real>)
    ensures |vs| <= 3
  {
    var values := LineFields(line);
    if |values| == 3 then ParsedPrefix(values, parse) else []
  }

  /** Classification and assignments of a line without exactly three fields. */
  lemma NotThreeFieldLine(line: string, parse: string -> Option<real>)
    requires |LineFields(line)| != 3
    ensures Classify(line, parse) == if Strip(line) == [] then Blank else WrongFieldCount(|LineFields(line)|)
    ensures Assigned(line, parse) == []
  {
  }

  /** Classification and assignments of a line with exactly three fields, field by field. */
  lemma ThreeFieldLine(line: string, parse: string -> Option<real>)
    requires |LineFields(line)| == 3
    ensures var f := LineFields(line);
      && Classify(line, parse) ==
        (if parse(f[0]).None? then BadField(0)
         else if parse(f[1]).None? then BadField(1)
         else if parse(f[2]).None? then BadField(2)
         else Published(Angles(parse(f[0]).value, parse(f[1]).value, parse(f[2]).value)))
      && Assigned(line, parse) == ParsedPrefix(f, parse)
  {
    ParsedPrefixOfThree(LineFields(line), parse);
    assert Strip(line) != [];
  }

  /** `a` with its first `|vs|` axes overwritten by `vs`. */
  function Overwrite(a: Angles, vs: seq<real>): (r: Angles)
    requires |vs| <= 3
    ensures forall k :: 0 <= k < 3 ==> r.Axis(k) == if k < |vs| then vs[k] else a.Axis(k)
  {
    Angles(if |vs| > 0 then vs[0] else a.roll,
           if |vs| > 1 then vs[1] else a.pitch,
           if |vs| > 2 then vs[2] else a.yaw)
  }

  /** The log entries one line adds: one for a conversion error, none otherwise. */
  function LineLog(o: LineOutcome): seq<LogEvent> {
    if o.BadField? then [SerialError(o.index)] else []
  }

  /** The angles after the reader has handled `lines` in order, starting from `a`. */
  function LinesEffect(a: Angles, lines: seq<string>, parse: string -> Option<real>): Angles
    decreases |lines|
  {
    if lines == [] then a
    else Overwrite(LinesEffect(a, lines[..|lines| - 1], parse), Assigned(lines[|lines| - 1], parse))
  }

  /** Whether some line of `lines` is published. */
  predicate AnyPublished(lines: seq<string>, parse: string -> Option<real>)
    decreases |lines|
  {
    lines != [] && (AnyPublished(lines[..|lines| - 1], parse) || Classify(lines[|lines| - 1], parse).Published?)
  }

  /** The log entries the reader adds while handling `lines`. */
  function LinesLog(lines: seq<string>, parse: string -> Option<real>): seq<LogEvent>
    decreases |lines|
  {
    if lines == [] then []
    else LinesLog(lines[..|lines| - 1], parse) + LineLog(Classify(lines[|lines| - 1], parse))
  }

  /** Handling one more line of a stream extends each of the stream functions by that line. */
  lemma StreamStep(a: Angles, lines: seq<string>, i: nat, parse: string -> Option<real>)
    requires i < |lines|
    ensures LinesEffect(a, lines[..i + 1], parse) == Overwrite(LinesEffect(a, lines[..i], parse), Assigned(lines[i], parse))
    ensures LinesLog(lines[..i + 1], parse) == LinesLog(lines[..i], parse) + LineLog(Classify(lines[i], parse))
    ensures AnyPublished(lines[..i + 1], parse) <==>
      (AnyPublished(lines[..i], parse) || Classify(lines[i], parse).Published?)
  {
    var pre, next := lines[..i], lines[..i + 1];
    assert next[..i] == pre;
    assert next[i] == lines[i];
    assert |next| - 1 == i;
  }

  lemma AppendAssoc<T>(a: seq<T>, b: seq<T>, c: seq<T>)
    ensures (a + b) + c == a + (b + c)
  {
  }

  class ImuState {
    var roll: real
    var pitch: real
    var yaw: real
    var dataReady: bool
    var rollZero: real
    var pitchZero: real
    var yawZero: real
    /** The messages handed to `log_message`, oldest first. */
    var log: seq<LogEvent>

    function Current(): Angles
      reads this
    {
      Angles(roll, pitch, yaw)
    }

    function Zero(): Angles
      reads this
    {
      Angles(rollZero, pitchZero, yawZero)
    }

    /** The initial values of the globals (imuSimulator.py:14, 18-19). */
    constructor ()
      ensures Current() == Angles(0.0, 0.0, 0.0) && Zero() == Angles(0.0, 0.0, 0.0)
      ensures !dataReady && log == []
    {
      roll, pitch, yaw := 0.0, 0.0, 0.0;
      rollZero, pitchZero, yawZero := 0.0, 0.0, 0.0;
      dataReady := false;
      log := [];
    }

    /**
     * One pass of the body of `read_serial_data`'s loop on an already-decoded
     * line.  The three assignments are sequential, so a field that fails to
     * convert leaves the axes before it overwritten and those after it as
     * they were; `data_ready` is set only after all three.
     */
    method ReadLine(line: string, parse: string -> Option<real>) returns (outcome: LineOutcome)
      modifies this
      ensures outcome == Classify(line, parse)
      ensures Current() == Overwrite(old(Current()), Assigned(line, parse))
      ensures dataReady == (old(dataReady) || outcome.Published?)
      ensures Zero() == old(Zero())
      ensures log == old(log) + LineLog(outcome)
    {
      var data := Strip(line);
      if data == [] {
        NotThreeFieldLine(line, parse);
        return Blank;
      }
      outcome := ReadData(line, data, parse);
    }

    /** The reader's handling of a line whose stripped form `data` is not empty. */
    method ReadData(ghost line: string, data: string, parse: string -> Option<real>) returns (outcome: LineOutcome)
      requires data == Strip(line) && data != []
      modifies this
      ensures outcome == Classify(line, parse)
      ensures Current() == Overwrite(old(Current()), Assigned(line, parse))
      ensures dataReady == (old(dataReady) || outcome.Published?)
      ensures Zero() == old(Zero())
      ensures log == old(log) + LineLog(outcome)
    {
      var values := Fields(data);
      if |values| != 3 {
        NotThreeFieldLine(line, parse);
        return WrongFieldCount(|values|);
      }
      ThreeFieldLine(line, parse);
      outcome := AssignFields(values, parse);
    }

    /**
     * The three conversions in axis order, each assigned as soon as it
     * succeeds, then the flag; a conversion that raises ends the sequence
     * and is logged.
     */
    method AssignFields(values: seq<string>, parse: string -> Option<real>) returns (outcome: LineOutcome)
      requires |values| == 3
      modifies this
      ensures outcome == (if parse(values[0]).None? then BadField(0)
         else if parse(values[1]).None? then BadField(1)
         else if parse(values[2]).None? then BadField(2)
         else Published(Angles(parse(values[0]).value, parse(values[1]).value, parse(values[2]).value)))
      ensures Current() == Overwrite(old(Current()), ParsedPrefix(values, parse))
      ensures dataReady == (old(dataReady) || outcome.Published?)
      ensures Zero() == old(Zero())
      ensures log == old(log) + LineLog(outcome)
    {
      ParsedPrefixOfThree(values, parse);
      var r := parse(values[0]);
      if r.None? {
        log := log + [SerialError(0)];
        return BadField(0);
      }
      roll := r.value;
      var p := parse(values[1]);
      if p.None? {
        log := log + [SerialError(1)];
        return BadField(1);
      }
      pitch := p.value;
      var y := parse(values[2]);
      if y.None? {
        log := log + [SerialError(2)];
        return BadField(2);
      }
      yaw := y.value;
      dataReady := true;
      outcome := Published(Angles(r.value, p.value, y.value));
    }

    /**
     * `read_serial_data` over a connection that delivers `lines` and then
     * closes: every line is handled, whatever happened to the ones before it.
     */
    method ReadStream(lines: seq<string>, parse: string -> Option<real>)
      modifies this
      ensures Current() == LinesEffect(old(Current()), lines, parse)
      ensures dataReady == (old(dataReady) || AnyPublished(lines, parse))
      ensures Zero() == old(Zero())
      ensures log == old(log) + LinesLog(lines, parse)
    {
      ghost var start, ready, written := Current(), dataReady, log;
      var i := 0;
      assert lines[..0] == [];
      while i < |lines|
        invariant 0 <= i <= |lines|
        invariant Handled(start, ready, written, lines[..i], parse)
        invariant Zero() == old(Zero())
      {
        StreamStep(start, lines, i, parse);
        AppendAssoc(written, LinesLog(lines[..i], parse), LineLog(Classify(lines[i], parse)));
        var outcome := ReadLine(lines[i], parse);
        i := i + 1;
      }
      assert lines[..i] == lines;
    }

    /**
     * The state after the reader has handled `lines`, starting from angles
     * `start`, flag `ready` and log `written`.
     */
    ghost predicate Handled(start: Angles, ready: bool, written: seq<LogEvent>, lines: seq<string>,
                            parse: string -> Option<real>)
      reads this
    {
      && Current() == LinesEffect(start, lines, parse)
      && dataReady == (ready || AnyPublished(lines, parse))
      && log == written + LinesLog(lines, parse)
    }

    /**
     * The flag logic of `update_plot`: when a sample is waiting, hand it to
     * the rotation and drawing code (the result), log it and clear the flag;
     * otherwise do nothing.
     */
    method UpdatePlot() returns (shown: Option<Angles>)
      modifies this
      ensures shown == if old(dataReady) then Some(old(Current())) else None
      ensures !dataReady
      ensures Current() == old(Current()) && Zero() == old(Zero())
      ensures log == old(log) + (if old(dataReady) then [AnglesShown(old(Current()))] else [])
    {
      shown := None;
      if dataReady {
        shown := Some(Current());
        dataReady := false;
        log := log + [AnglesShown(Current())];
      }
    }

    /** `on_reset_imu`: the current angles become the zero reference. */
    method ResetImu()
      modifies this
      ensures Zero() == old(Current())
      ensures Current() == old(Current()) && dataReady == old(dataReady)
      ensures log == old(log) + [ImuReset(old(Current()))]
    {
      rollZero := roll;
      yawZero := yaw;
      pitchZero := pitch;
      log := log + [ImuReset(Current())];
    }
  }

  // ---------------------------------------------------------------------
  // Properties of one line

  /** A line is published exactly when it has three fields and all three convert. */
  lemma PublishedIff(line: string, parse: string -> Option<real>)
    ensures Classify(line, parse).Published? <==>
      (|LineFields(line)| == 3 && forall i :: 0 <= i < 3 ==> parse(LineFields(line)[i]).Some?)
  {
    var values := LineFields(line);
    if |values| == 3 {
      var vs := ParsedPrefix(values, parse);
      assert Strip(line) == [] ==> values == [];
      if forall i :: 0 <= i < 3 ==> parse(values[i]).Some? {
        assert |vs| == 3;
      }
    }
  }

  /** A published line sets the axes to its fields in order. */
  lemma PublishedValues(line: string, parse: string -> Option<real>, a: Angles)
    requires Classify(line, parse).Published?
    ensures var f := LineFields(line);
      && |f| == 3
      && Classify(line, parse).sample == Overwrite(a, Assigned(line, parse))
      && parse(f[0]) == Some(Overwrite(a, Assigned(line, parse)).roll)
      && parse(f[1]) == Some(Overwrite(a, Assigned(line, parse)).pitch)
      && parse(f[2]) == Some(Overwrite(a, Assigned(line, parse)).yaw)
  {
  }

  /** A blank line, or one without exactly three fields, changes no axis and logs nothing. */
  lemma MalformedLineIgnored(line: string, parse: string -> Option<real>, a: Angles)
    requires |LineFields(line)| != 3
    ensures Overwrite(a, Assigned(line, parse)) == a
    ensures !Classify(line, parse).Published? && LineLog(Classify(line, parse)) == []
  {
  }

  /**
   * A field that fails to convert stops the reader at that field: the axes
   * before it hold the new values, the axis of the bad field and those after
   * it keep their old values.
   */
  lemma BadFieldPartialUpdate(line: string, parse: string -> Option<real>, a: Angles, k: nat)
    requires Classify(line, parse).BadField?
    requires k < 3
    ensures var i := Classify(line, parse).index;
      && parse(LineFields(line)[i]) == None
      && (k < i ==> parse(LineFields(line)[k]) == Some(Overwrite(a, Assigned(line, parse)).Axis(k)))
      && (k >= i ==> Overwrite(a, Assigned(line, parse)).Axis(k) == a.Axis(k))
  {
  }

  /** A bad first field changes nothing at all. */
  lemma BadFirstFieldChangesNothing(line: string, parse: string -> Option<real>, a: Angles)
    requires Classify(line, parse) == BadField(0)
    ensures Overwrite(a, Assigned(line, parse)) == a
  {
  }

  /** Three non-empty, `*`-free fields joined by `*` are the line's three fields (`1*2*3`). */
  lemma ThreeFieldsJoined(x: string, y: string, z: string)
    requires x != [] && y != [] && z != []
    requires '*' !in x && '*' !in y && '*' !in z
    ensures Fields(x + "*" + y + "*" + z) == [x, y, z]
  {
    JoinThree(x, y, z);
    FieldsJoin([x, y, z]);
  }

  /** Leading and trailing separators are discarded before counting: `*1*2*3*` has the fields of `1*2*3`. */
  lemma OuterSeparatorsIgnored(x: string, y: string, z: string)
    requires x != [] && y != [] && z != []
    requires '*' !in x && '*' !in y && '*' !in z
    ensures Fields("*" + x + "*" + y + "*" + z + "*") == [x, y, z]
  {
    var plain := x + "*" + y + "*" + z;
    ThreeFieldsJoined(x, y, z);
    SurroundingSeparatorsIgnored(plain);
    assert "*" + x + "*" + y + "*" + z + "*" == "*" + plain + "*";
  }

  /** A doubled separator is one separator: `1**2*3` has the fields of `1*2*3`. */
  lemma DoubledSeparatorIgnored(x: string, y: string, z: string)
    requires x != [] && y != [] && z != []
    requires '*' !in x && '*' !in y && '*' !in z
    ensures Fields(x + "**" + y + "*" + z) == [x, y, z]
  {
    var tail := y + "*" + z;
    ThreeFieldsJoined(x, y, z);
    DoubledSeparatorCollapses(x, tail);
    assert x + "**" + y + "*" + z == x + "**" + tail;
    assert x + "*" + tail == x + "*" + y + "*" + z;
  }

  lemma SurroundingSeparatorsIgnored(s: string)
    ensures Fields("*" + s + "*") == Fields(s)
  {
    TrailingSeparatorIgnored(s);
    LeadingSeparatorIgnored(s + "*");
    assert "*" + s + "*" == "*" + (s + "*");
  }

  lemma JoinThree(x: string, y: string, z: string)
    ensures Join([x, y, z], '*') == x + "*" + y + "*" + z
  {
    var parts := [x, y, z];
    assert parts[1..] == [y, z];
    assert [y, z][1..] == [z];
    assert Join([y, z], '*') == y + "*" + z;
    assert Join(parts, '*') == x + "*" + (y + "*" + z);
  }

  /**
   * A line written as three non-empty, `*`-free, whitespace-free fields
   * joined with `*` is published with exactly those values.
   */
  lemma ThreeFieldLinePublished(x: string, y: string, z: string, parse: string -> Option<real>,
                                rv: real, pv: real, yv: real)
    requires x != [] && y != [] && z != []
    requires '*' !in x && '*' !in y && '*' !in z
    requires !IsSpace(x[0]) && !IsSpace(z[|z| - 1])
    requires parse(x) == Some(rv) && parse(y) == Some(pv) && parse(z) == Some(yv)
    ensures Classify(x + "*" + y + "*" + z, parse) == Published(Angles(rv, pv, yv))
  {
    var line := x + "*" + y + "*" + z;
    PlainLineFields(x, y, z);
    ThreeFieldLine(line, parse);
  }

  /** Such a line is not changed by stripping, so its fields are the three parts. */
  lemma PlainLineFields(x: string, y: string, z: string)
    requires x != [] && y != [] && z != []
    requires '*' !in x && '*' !in y && '*' !in z
    requires !IsSpace(x[0]) && !IsSpace(z[|z| - 1])
    ensures LineFields(x + "*" + y + "*" + z) == [x, y, z]
  {
    var line := x + "*" + y + "*" + z;
    assert line[0] == x[0] && line[|line| - 1] == z[|z| - 1];
    StripNoSurroundingSpace(line);
    ThreeFieldsJoined(x, y, z);
  }

  /** Stripping a string that neither starts nor ends with whitespace is the identity. */
  lemma StripNoSurroundingSpace(s: string)
    requires s != [] && !IsSpace(s[0]) && !IsSpace(s[|s| - 1])
    ensures Strip(s) == s
  {
  }

  /** Last write wins: after a published line, the angles are that line's, whatever came before. */
  lemma LastWriteWins(a: Angles, lines: seq<string>, parse: string -> Option<real>)
    requires lines != [] && Classify(lines[|lines| - 1], parse).Published?
    ensures LinesEffect(a, lines, parse) == Classify(lines[|lines| - 1], parse).sample
  {
    PublishedValues(lines[|lines| - 1], parse, LinesEffect(a, lines[..|lines| - 1], parse));
  }

  /** A stream of lines none of which has three fields changes no axis and logs nothing. */
  lemma {:induction false} MalformedStreamIgnored(a: Angles, lines: seq<string>, parse: string -> Option<real>)
    requires forall i :: 0 <= i < |lines| ==> |LineFields(lines[i])| != 3
    ensures LinesEffect(a, lines, parse) == a
    ensures !AnyPublished(lines, parse) && LinesLog(lines, parse) == []
    decreases |lines|
  {
    if lines != [] {
      var init := lines[..|lines| - 1];
      assert forall i :: 0 <= i < |init| ==> init[i] == lines[i];
      MalformedStreamIgnored(a, init, parse);
      MalformedLineIgnored(lines[|lines| - 1], parse, a);
    }
  }

  // ---------------------------------------------------------------------
  // Clients: what callers of the state object can rely on

  /** Two `update_plot` ticks with no line in between: the second does nothing. */
  method TwoPlotTicks(st: ImuState) returns (first: Option<Angles>, second: Option<Angles>)
    modifies st
    ensures first == if old(st.dataReady) then Some(old(st.Current())) else None
    ensures second == None
    ensures st.Current() == old(st.Current()) && st.Zero() == old(st.Zero()) && !st.dataReady
    ensures st.log == old(st.log) + (if old(st.dataReady) then [AnglesShown(old(st.Current()))] else [])
  {
    first := st.UpdatePlot();
    second := st.UpdatePlot();
  }

  /** A published line is shown by the next `update_plot` tick, and only once. */
  method PublishThenPlot(st: ImuState, line: string, parse: string -> Option<real>)
    returns (first: Option<Angles>, second: Option<Angles>)
    requires Classify(line, parse).Published?
    modifies st
    ensures first == Some(Classify(line, parse).sample)
    ensures second == None
  {
    var o := st.ReadLine(line, parse);
    PublishedValues(line, parse, old(st.Current()));
    first := st.UpdatePlot();
    second := st.UpdatePlot();
  }
}
