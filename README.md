# 3DOF Hovercraft console core, modelled in Dafny

The console in `3DOFHover.py` talks MAVLink to a Pixhawk. This project models three parts of it and proves properties about them:

- **Rolling orientation history** (`read_attitude`). A background loop receives ATTITUDE messages. For each one it appends the elapsed time and the roll, pitch and yaw (radians times 57.3) to four parallel lists. When the lists grow past 50 entries, it pops index 0 from each list.
  - Modelled in `telemetry.dfy` as the class `Telemetry.AttitudeHistory`. The class holds the four lists as `seq<real>` fields. `Append` is one append-and-trim step, `Step` is one loop iteration and `ReadAttitude` is a finite run of the loop.
  - The class invariant `Valid()` says three things: the lists have equal length, they hold at most 50 entries, and zipped together they equal `Window(Received)`. `Received` is a ghost record of every sample ever stored, and `Window` gives the last min(n, 50) of them in arrival order.
- **Log row** (`log_data`). The row has five fields: timestamp, note, then the newest roll, pitch and yaw. An angle field is `""` when its list is empty. Modelled in `logging.dfy`. The timestamp has an opaque type parameter `S`.
- **Manual-control command** (`send_motor_command`). The three entry texts go through `int()` in x, y, z order. The send gets `(target, x, y, z, 0, 0)`, and only then does the status become "Command Sent!". Modelled in `command.dfy` as a pure parse plus a `Panel` value. The panel records the sends made and the status text. A `ValueError` leaves the panel as it was. As in the code, the values get no range check.

`wrappers.dfy` holds the `Option` and `Result` datatypes.

## Model

| member | source | states |
|---|---|---|
| Telemetry.Trim | 3DOFHover.py:111-115 | the trim removes exactly the element at index 0 when the list is longer than 50, keeps the others in order, and otherwise changes nothing |
| Telemetry.WindowShape | 3DOFHover.py:105-115 | the history of arrivals s holds min(\|s\|, 50) entries, and they are the newest ones in arrival order |
| Telemetry.WindowSnoc | 3DOFHover.py:105-115 | one append-then-trim step turns the window of the earlier arrivals into the window of the arrivals plus the new sample |
| Telemetry.IngestIsWindow | 3DOFHover.py:100-115 | replaying any arrivals onto a history that is a window gives the window of all arrivals together |
| Telemetry.IngestFromEmpty | 3DOFHover.py:83-115 | after k appends from the empty lists, the history is exactly the last min(k, 50) appended values in arrival order |
| Telemetry.ZipTrim | 3DOFHover.py:105-115 | appending to and trimming the four parallel lists in step is the same as appending to and trimming the list of samples |
| Telemetry.AttitudeHistory.constructor | 3DOFHover.py:84-88 | the four lists start empty, nothing has been received, and the start time is the clock reading |
| Telemetry.AttitudeHistory.Append | 3DOFHover.py:105-115 | each list becomes Trim(old + [value]); the four lists stay equal in length; the length is min(old + 1, 50); the new values are last; the invariant is kept |
| Telemetry.AttitudeHistory.Step | 3DOFHover.py:101-115 | an absent message changes nothing; a present one is stored with time clock - start and angles times 57.3, the history advances by one trim step, and that message's converted time and angles are the last entry of each list, which is what the next log row reports |
| Telemetry.AttitudeHistory.ReadAttitude | 3DOFHover.py:100-115 | after a run of receives, the received record gains one sample per present message in order, and the stored samples equal the old history with those samples ingested |
| Logging.LogRow | 3DOFHover.py:149-155 | the row has exactly 5 fields in the order timestamp, note, roll, pitch, yaw; each angle field is blank exactly when its list is empty, and otherwise is that list's last value |
| Logging.LogRowRecordsNewest | 3DOFHover.py:146-155 | logged from a consistent history, the row carries the newest sample ever received, or three blank angles if nothing was received |
| Command.ParseDigits | 3DOFHover.py:39-41 | the digit scan succeeds exactly on a nonempty string of decimal digits, and its value is the positional value of the digits |
| Command.ParseInt | 3DOFHover.py:39-41 | an entry converts exactly when it is an optional sign followed by at least one digit, and then to the signed positional value |
| Command.ParseFormatNat | 3DOFHover.py:39-41 | the decimal spelling of every natural number scans back to that number |
| Command.ParseFormatInt | 3DOFHover.py:39-41 | the decimal spelling of every integer, as `str` writes it, converts back to that integer |
| Command.BuildCommand | 3DOFHover.py:37-44 | the arguments are built exactly when all three entries are integer literals, and are then (target, x, y, z, 0, 0); otherwise the error names the first entry that fails, in x, y, z order |
| Command.PressSend | 3DOFHover.py:36-45 | valid entries record exactly one send of (target, x, y, z, 0, 0) and set the status to "Command Sent!"; any invalid entry leaves the sends and the status unchanged |
| Command.SendFormatted | 3DOFHover.py:36-45 | integers typed as `str` spells them are sent unchanged, in x, y, z order with rotation 0 and buttons 0 |
| Command.PlaceholderRejected | 3DOFHover.py:37-49 | the starting text "X Value" of the x entry raises on x, and pressing send then changes nothing |
| Command.SendExample | 3DOFHover.py:36-45 | entries "10", "0", "-5" give exactly one send of (10, 0, -5, 0, 0) |

## Left out

- Command.ParseInt: rejects some texts that Python's `int()` accepts. These are surrounding whitespace, `_` between digits and non-ASCII Unicode digits. The model accepts only an optional `+`/`-` followed by ASCII digits.
- Command.ParseInt: accepts digit strings of any length. Python 3.11 and later raise ValueError on a decimal text longer than 4300 digits, so such an entry raises in the source; the model treats it as a valid literal.
- Command.PressSend: treats the send as never failing. In the source, `manual_control_send` belongs to the MAVLink library, which packs x, y and z into signed 16-bit fields and raises on values outside that range. That error comes before "Command Sent!" is set. The model records such a send and sets the status; like the code, it adds no range check of its own.
- Telemetry.ToSample: uses the code's factor 57.3 as an exact `real` multiplication. It does not use 180/π, so a quarter turn (π/2 rad) maps to about 90.0066 degrees rather than 90. IEEE double rounding of the product and of the time difference is not modelled.
- The MAVLink connection, the heartbeat handshake, the blocking `recv_match` and `manual_control_send` are network I/O. Received messages are a parameter of `Step`/`ReadAttitude` (`None` for a falsy message), and a send is a recorded `ManualControl` value in `Panel.sent`.
- `master.target_system` is passed in as the integer `target`.
- The daemon thread, and the lists it shares with the Tk callbacks without synchronisation, are left out. Each append is modelled as one atomic sequential step, so torn reads are not modelled.
- `time.time()` and `datetime.now()` are clock reads and become parameters: `clock` for the elapsed time and the opaque `stamp` in the log row. Elapsed times are not assumed to increase, since the code does not enforce that.
- The CSV file open, the write and the text encoding of the row are left out (file I/O), and so is the "Logged Successfully" label. The model stops at the row's fields.
- Tkinter widgets, `root.after` rescheduling, the `should_plot` gate, `mainloop` and all matplotlib drawing are UI code and are left out.
- The `ValueError` traceback that Tk prints for a failed conversion is left out. The model keeps only the fact that nothing else happens.
- 3DOFHoverGUI.py is left out. It only creates a window with two empty tabs, and its connection code is commented out.
