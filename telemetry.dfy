/**
 * The rolling orientation history that the background reader `read_attitude`
 * in 3DOFHover.py keeps in four module-level parallel lists: elapsed time,
 * roll, pitch and yaw. Each received ATTITUDE message appends one value to
 * every list; once the lists hold more than `Capacity` entries the entry at
 * index 0 is popped from each of them.
 */
module Telemetry {
  import opened Wrappers

  /** The history keeps at most this many samples (`len(time_data) > 50`). */
  const Capacity: nat := 50

  /** Radians-to-degrees factor applied to every received angle. */
  const DegreesPerRadian: real := 57.3

  /** One ATTITUDE message as received from the link, angles in radians. */
  datatype AttitudeMsg = AttitudeMsg(roll: real, pitch: real, yaw: real)

  /** One stored sample: seconds since start and the three angles in degrees. */
  datatype Sample = Sample(time: real, roll: real, pitch: real, yaw: real)

  function Min(a: int, b: int): (m: int) {
    if a <= b then a else b
  }

  /** The sample stored for message `msg` read `elapsed` seconds after start. */
  function ToSample(msg: AttitudeMsg, elapsed: real): (s: Sample) {
    Sample(elapsed, msg.roll * DegreesPerRadian, msg.pitch * DegreesPerRadian, msg.yaw * DegreesPerRadian)
  }

  /**
   * The trim step applied to one list right after an append: when the list is
   * longer than Capacity, exactly its first element is removed and the rest
   * keep their order.
   */
  function Trim<T>(s: seq<T>): (r: seq<T>)
    ensures |r| == if |s| > Capacity then |s| - 1 else |s|
    ensures forall i :: 0 <= i < |r| ==> r[i] == s[|s| - |r| + i]
  {
    if |s| > Capacity then s[1..] else s
  }

  /** Reference definition of the history: the last min(|s|, Capacity) elements of s, in order. */
  function Window<T>(s: seq<T>): (w: seq<T>) {
    if |s| <= Capacity then s else s[|s| - Capacity..]
  }

  /** The history after each of `xs` is appended in turn, trimming after every append. */
  function Ingest<T>(h: seq<T>, xs: seq<T>): (h': seq<T>)
    decreases |xs|
  {
    if xs == [] then h else Ingest(Trim(h + [xs[0]]), xs[1..])
  }

  /** The four parallel lists read as one list of samples. */
  function Zip(t: seq<real>, r: seq<real>, p: seq<real>, y: seq<real>): (z: seq<Sample>)
    requires |r| == |t| && |p| == |t| && |y| == |t|
    ensures |z| == |t|
  {
    seq(|t|, i requires 0 <= i < |t| => Sample(t[i], r[i], p[i], y[i]))
  }

  /** The window holds min(|s|, Capacity) elements and ends with the newest one. */
  lemma WindowShape<T>(s: seq<T>)
    ensures |Window(s)| == Min(|s|, Capacity)
    ensures forall i :: 0 <= i < |Window(s)| ==> Window(s)[i] == s[|s| - |Window(s)| + i]
  {
  }

  /** One append-and-trim step moves the window of the arrivals on by one sample. */
  lemma WindowSnoc<T>(s: seq<T>, x: T)
    ensures Window(s + [x]) == Trim(Window(s) + [x])
  {
  }

  /**
   * Replaying arrivals `xs` on a history that is the window of earlier
   * arrivals `h` gives the window of all arrivals: in particular, after k
   * appends from empty the history is the last min(k, Capacity) of them.
   */
  lemma {:induction false} IngestIsWindow<T>(h: seq<T>, xs: seq<T>)
    ensures Ingest(Window(h), xs) == Window(h + xs)
    decreases |xs|
  {
    if xs == [] {
      assert h + xs == h;
    } else {
      var h' := h + [xs[0]];
      calc {
        Ingest(Window(h), xs);
        Ingest(Trim(Window(h) + [xs[0]]), xs[1..]);
        { WindowSnoc(h, xs[0]); }
        Ingest(Window(h'), xs[1..]);
        { IngestIsWindow(h', xs[1..]); }
        Window(h' + xs[1..]);
        { assert h' + xs[1..] == h + xs; }
        Window(h + xs);
      }
    }
  }

  /** Appending k samples to an empty history leaves exactly the last min(k, Capacity) of them. */
  lemma IngestFromEmpty<T>(xs: seq<T>)
    ensures |Ingest([], xs)| == Min(|xs|, Capacity)
    ensures forall i :: 0 <= i < |Ingest([], xs)| ==> Ingest([], xs)[i] == xs[|xs| - |Ingest([], xs)| + i]
  {
    assert Window<T>([]) == [];
    IngestIsWindow([], xs);
    assert [] + xs == xs;
    WindowShape(xs);
  }

  /** Trimming the four lists in step trims their zipped view the same way. */
  lemma ZipTrim(t: seq<real>, r: seq<real>, p: seq<real>, y: seq<real>, s: Sample)
    requires |r| == |t| && |p| == |t| && |y| == |t|
    ensures Zip(Trim(t + [s.time]), Trim(r + [s.roll]), Trim(p + [s.pitch]), Trim(y + [s.yaw]))
         == Trim(Zip(t, r, p, y) + [s])
  {
  }

  /** The samples that a run of receives appends: one per present message, in order. */
  function Arrivals(msgs: seq<Option<AttitudeMsg>>, clocks: seq<real>, start: real): (arrived: seq<Sample>)
    requires |clocks| == |msgs|
  {
    if msgs == [] then []
    else
      var n := |msgs| - 1;
      Arrivals(msgs[..n], clocks[..n], start)
        + (if msgs[n].Some? then [ToSample(msgs[n].value, clocks[n] - start)] else [])
  }

  /**
   * The history shared by the reader thread, the plot and the logger.
   * The four lists are the fields of this object; `Received` is the ghost
   * record of every sample ever appended.
   */
  class AttitudeHistory {
    var timeData: seq<real>
    var rollData: seq<real>
    var pitchData: seq<real>
    var yawData: seq<real>
    /** Clock reading taken when the history was created (`start_time`). */
    const startTime: real
    ghost var Received: seq<Sample>

    /** The lists have equal length, at most Capacity, and hold the latest received samples. */
    ghost predicate Valid()
      reads this
    {
      |rollData| == |timeData| && |pitchData| == |timeData| && |yawData| == |timeData| &&
      |timeData| <= Capacity &&
      Zip(timeData, rollData, pitchData, yawData) == Window(Received)
    }

    /** The stored samples, oldest first. */
    function Samples(): (z: seq<Sample>)
      reads this
      requires Valid()
      ensures z == Window(Received)
    {
      Zip(timeData, rollData, pitchData, yawData)
    }

    constructor (clock: real)
      ensures Valid()
      ensures startTime == clock
      ensures timeData == [] && rollData == [] && pitchData == [] && yawData == []
      ensures Received == []
    {
      timeData, rollData, pitchData, yawData := [], [], [], [];
      startTime := clock;
      Received := [];
    }

    /**
     * One pass of the reader loop for a present message: append to all four
     * lists, then pop index 0 from all four if they outgrew Capacity.
     */
    method Append(t: real, roll: real, pitch: real, yaw: real)
      requires Valid()
      modifies this
      ensures Valid()
      ensures Received == old(Received) + [Sample(t, roll, pitch, yaw)]
      ensures timeData == Trim(old(timeData) + [t])
      ensures rollData == Trim(old(rollData) + [roll])
      ensures pitchData == Trim(old(pitchData) + [pitch])
      ensures yawData == Trim(old(yawData) + [yaw])
      ensures |timeData| == Min(old(|timeData|) + 1, Capacity)
      ensures timeData[|timeData| - 1] == t && rollData[|rollData| - 1] == roll
      ensures pitchData[|pitchData| - 1] == pitch && yawData[|yawData| - 1] == yaw
    {
      ghost var s := Sample(t, roll, pitch, yaw);
      ZipTrim(timeData, rollData, pitchData, yawData, s);
      WindowSnoc(Received, s);
      rollData := rollData + [roll];
      pitchData := pitchData + [pitch];
      yawData := yawData + [yaw];
      timeData := timeData + [t];
      if |timeData| > Capacity {
        rollData := rollData[1..];
        pitchData := pitchData[1..];
        yawData := yawData[1..];
        timeData := timeData[1..];
      }
      Received := Received + [s];
    }

    /**
     * One iteration of the reader loop: an absent message changes nothing;
     * a present one is stored with its angles converted to degrees and its
     * time taken relative to `startTime`.
     */
    method Step(msg: Option<AttitudeMsg>, clock: real)
      requires Valid()
      modifies this
      ensures Valid()
      ensures msg.None? ==> unchanged(this)
      ensures msg.Some? ==> Received == old(Received) + [ToSample(msg.value, clock - startTime)]
      ensures msg.Some? ==> Samples() == Trim(old(Samples()) + [ToSample(msg.value, clock - startTime)])
      ensures msg.Some? ==> rollData[|rollData| - 1] == msg.value.roll * DegreesPerRadian
      ensures msg.Some? ==> pitchData[|pitchData| - 1] == msg.value.pitch * DegreesPerRadian
      ensures msg.Some? ==> yawData[|yawData| - 1] == msg.value.yaw * DegreesPerRadian
      ensures msg.Some? ==> timeData[|timeData| - 1] == clock - startTime
    {
      if msg.Some? {
        var sample := ToSample(msg.value, clock - startTime);
        WindowSnoc(Received, sample);
        Append(sample.time, sample.roll, sample.pitch, sample.yaw);
      }
    }

    /**
     * A finite run of the reader loop over the messages `msgs`, the i-th
     * received when the clock read `clocks[i]`.
     */
    method ReadAttitude(msgs: seq<Option<AttitudeMsg>>, clocks: seq<real>)
      requires Valid()
      requires |clocks| == |msgs|
      modifies this
      ensures Valid()
      ensures Received == old(Received) + Arrivals(msgs, clocks, startTime)
      ensures Samples() == Ingest(old(Samples()), Arrivals(msgs, clocks, startTime))
    {
      var i := 0;
      while i < |msgs|
        invariant 0 <= i <= |msgs|
        invariant Valid()
        invariant Received == old(Received) + Arrivals(msgs[..i], clocks[..i], startTime)
      {
        assert msgs[..i + 1][..i] == msgs[..i];
        assert clocks[..i + 1][..i] == clocks[..i];
        Step(msgs[i], clocks[i]);
        i := i + 1;
      }
      assert msgs[..i] == msgs && clocks[..i] == clocks;
      IngestIsWindow(old(Received), Arrivals(msgs, clocks, startTime));
    }
  }
}
