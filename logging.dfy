/**
 * The row that `log_data` in 3DOFHover.py appends to the CSV log when the
 * operator presses "Log Last Orientation": timestamp, note, and the newest
 * roll, pitch and yaw, each blank when its list is empty.
 */
module Logging {
  import opened Telemetry

  /** One CSV field: the timestamp (opaque here), free text, or an angle in degrees. */
  datatype Cell<S> = Stamp(stamp: S) | Text(text: string) | Number(value: real)

  /** The field for the newest value of one list: `col[-1] if col else ""`. */
  function Newest<S>(col: seq<real>): (c: Cell<S>) {
    if col == [] then Text("") else Number(col[|col| - 1])
  }

  /** The row written for timestamp `stamp` and note `note`, given the roll, pitch and yaw lists. */
  function LogRow<S>(stamp: S, note: string, roll: seq<real>, pitch: seq<real>, yaw: seq<real>): (row: seq<Cell<S>>)
    ensures |row| == 5
    ensures row[0] == Stamp(stamp) && row[1] == Text(note)
    ensures row[2] == Text("") <==> roll == []
    ensures row[3] == Text("") <==> pitch == []
    ensures row[4] == Text("") <==> yaw == []
    ensures roll != [] ==> row[2] == Number(roll[|roll| - 1])
    ensures pitch != [] ==> row[3] == Number(pitch[|pitch| - 1])
    ensures yaw != [] ==> row[4] == Number(yaw[|yaw| - 1])
  {
    [Stamp(stamp), Text(note), Newest(roll), Newest(pitch), Newest(yaw)]
  }

  /**
   * Logged from a consistent history, the row holds the newest sample ever
   * received, or three blank angle fields when nothing has been received.
   */
  lemma LogRowRecordsNewest<S>(h: AttitudeHistory, stamp: S, note: string)
    requires h.Valid()
    ensures h.Received == [] ==>
      LogRow(stamp, note, h.rollData, h.pitchData, h.yawData)
        == [Stamp(stamp), Text(note), Text(""), Text(""), Text("")]
    ensures h.Received != [] ==>
      var s := h.Received[|h.Received| - 1];
      LogRow(stamp, note, h.rollData, h.pitchData, h.yawData)
        == [Stamp(stamp), Text(note), Number(s.roll), Number(s.pitch), Number(s.yaw)]
  {
  }
}
