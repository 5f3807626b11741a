/** The monitor of `RPSU01.py` (the earlier version): up to three devices, no temperature,
    replies decoded strictly, and every failure shown as a lost connection. */
module Rpsu01 {
  import opened Text
  import opened Wrappers
  import Sanitize
  import P = Pattern
  import opened Transport
  import opened CsvLog
  import opened Registry
  import opened Polling

  const MaxDevices: nat := 3

  // ---------------------------------------------------------------------------
  // Replies and their sanitising

  /** `bytes.decode('ascii')` inside `send_command`: one byte outside ASCII makes the
      decoding raise, and `send_command` then answers "". */
  function DecodeStrict(bs: seq<byte>): (r: string)
    ensures (forall k :: 0 <= k < |bs| ==> bs[k] < 128) ==>
      |r| == |bs| && forall k :: 0 <= k < |bs| ==> r[k] == bs[k] as char
    ensures (exists k :: 0 <= k < |bs| && bs[k] >= 128) ==> r == ""
  {
    if forall k :: 0 <= k < |bs| ==> bs[k] < 128 then seq(|bs|, k requires 0 <= k < |bs| => bs[k] as char)
    else ""
  }

  /** `clean_response`: printable ASCII only (line feeds and carriage returns go too),
      and nothing is left of white space at the ends. */
  function CleanResponse(s: string): (r: string)
    ensures forall c :: c in r ==> ' ' <= c <= '~'
    ensures Trimmed(r)
  {
    Sanitize.Clean(s, Sanitize.Printable)
  }

  /** Cleaning a cleaned reply changes nothing. */
  lemma CleanResponseIdempotent(s: string)
    ensures CleanResponse(CleanResponse(s)) == CleanResponse(s)
  {
    Sanitize.CleanIdempotent(s, Sanitize.Printable);
  }

  /** Colour codes around a reading are deleted and the reading is kept. */
  lemma CleanRemovesColour()
    ensures CleanResponse(Sanitize.Red + "Voltage: 12" + Sanitize.Reset) == "Voltage: 12"
  {
    Sanitize.ColouredVoltage(Sanitize.Printable);
  }

  /** Line breaks inside a reply are dropped, so its lines run together. */
  lemma CleanDropsLineBreaks()
    ensures CleanResponse("A\r\nB") == "AB"
  {
    Sanitize.LineBreaksDropped();
  }

  // ---------------------------------------------------------------------------
  // Field extractors

  /** `key[:=]\s*([-\d.]+)`, case sensitive and with no white space before the separator.
      The key is matched literally. `RPSU01.py` puts it into the expression unescaped,
      which is the same for the three keys it uses ("Voltage", "Current" and
      "Leak Current"): they hold no character with a meaning in a regular expression. */
  function ValuePattern(key: string): P.Pattern {
    P.Pattern(key, false, P.Run(P.Number), false)
  }

  const UptimePattern: P.Pattern := P.Pattern("RPSU Uptime", false, P.RunThen(P.Digit, " Hours"), false)
  const StatusPattern: P.Pattern := P.Pattern("RPSU Status", false, P.OnOff, true)

  /** `extract_value`: a non-empty run of `-`, digits and `.`, or "0". */
  function ExtractValue(s: string, key: string): (r: string)
    ensures r == "0" || (|r| > 0 && forall k :: 0 <= k < |r| ==> r[k] == '-' || r[k] == '.' || IsDigit(r[k]))
  {
    P.Search(s, ValuePattern(key)).GetOr("0")
  }

  /** `extract_value` yields the capture of the leftmost match, "0" when there is none. */
  lemma ExtractValueIsLeftmost(s: string, key: string)
    ensures ExtractValue(s, key) == P.Leftmost(s, ValuePattern(key)).GetOr("0")
  {
    P.SearchIsLeftmost(s, ValuePattern(key));
  }

  /** `extract_uptime`: a non-empty run of digits, or "0". */
  function ExtractUptime(s: string): (r: string)
    ensures r == "0" || (|r| > 0 && forall k :: 0 <= k < |r| ==> IsDigit(r[k]))
  {
    P.Search(s, UptimePattern).GetOr("0")
  }

  /** The uptime is the digits of the leftmost match, which must go on with " Hours". */
  lemma ExtractUptimeIsLeftmost(s: string)
    ensures ExtractUptime(s) == P.Leftmost(s, UptimePattern).GetOr("0")
  {
    P.SearchIsLeftmost(s, UptimePattern);
  }

  /** `extract_rpsu_status`: always exactly "ON" or "OFF". */
  function ExtractStatus(s: string): (r: string)
    ensures r == "ON" || r == "OFF"
  {
    match P.Search(s, StatusPattern)
    case Some(w) =>
      if |w| == 2 then UpperWord(w, "ON", true); UpperCase(w)
      else UpperWord(w, "OFF", true); UpperCase(w)
    case None => "OFF"
  }

  /** The status is "ON" exactly when the leftmost match reads "on" in some case. */
  lemma ExtractStatusIsLeftmost(s: string)
    ensures ExtractStatus(s) == "ON" <==> P.Leftmost(s, StatusPattern).Some? && |P.Leftmost(s, StatusPattern).value| == 2
  {
    P.SearchIsLeftmost(s, StatusPattern);
  }

  /** The keys are matched in their own case only. */
  lemma KeysAreCaseSensitive()
    ensures ExtractValue("voltage: 5", "Voltage") == "0"
  {
    var s := "voltage: 5";
    forall p | 0 <= p <= |s|
      ensures P.At(s, p, ValuePattern("Voltage")).None?
    {
      if p + 7 <= |s| {
        assert s[p + 0] != "Voltage"[0];
      }
    }
  }

  /** An uptime without " Hours" after its digits is not read. */
  lemma UptimeNeedsUnit()
    ensures ExtractUptime("RPSU Uptime: 12") == "0"
  {
    var s := "RPSU Uptime: 12";
    forall p | 0 <= p <= |s|
      ensures P.At(s, p, UptimePattern).None?
    {
      if p == 0 {
        P.RunEndIs(s, 12, 13, P.Space);
        P.RunEndIs(s, 13, 15, P.Digit);
      } else if p + 11 <= |s| {
        assert s[p + 0] != "RPSU Uptime"[0];
      }
    }
  }

  /** The digits before " Hours" are the uptime. */
  lemma UptimeWithUnit()
    ensures ExtractUptime("RPSU Uptime: 12 Hours") == "12"
  {
    var s := "RPSU Uptime: 12 Hours";
    assert LitAt(s, 0, "RPSU Uptime", false);
    P.RunEndIs(s, 12, 13, P.Space);
    P.RunEndIs(s, 13, 15, P.Digit);
    assert LitAt(s, 15, " Hours", false);
    assert s[13..15] == "12";
    assert P.At(s, 0, UptimePattern) == Some("12");
  }

  // ---------------------------------------------------------------------------
  // Rows and the startup view

  /** The values one successful pass extracts. */
  datatype Reading = Reading(status: string, uptime: string, voltage: string, current: string, leak: string)

  function Read(show: string): (r: Reading)
    ensures r.status == "ON" || r.status == "OFF"
    ensures r.uptime != "" && r.voltage != "" && r.current != "" && r.leak != ""
  {
    Reading(ExtractStatus(show), ExtractUptime(show), ExtractValue(show, "Voltage"),
            ExtractValue(show, "Current"), ExtractValue(show, "Leak Current"))
  }

  const Header: Row := ["Timestamp", "Status", "Uptime", "Voltage", "Current", "Leak Current"]

  function DataRow(stamp: string, r: Reading): (row: Row)
    ensures |row| == |Header| && row[0] == stamp
  {
    [stamp, r.status, r.uptime, r.voltage, r.current, r.leak]
  }

  /** The row of the UTC log: status 1 exactly when the status is "ON"; otherwise
      every value is written as 0. */
  function UtcRow(stamp: string, r: Reading): (row: Row)
    ensures |row| == 6 && row[0] == stamp
    ensures row[1] == (if r.status == "ON" then "1" else "0")
    ensures r.status == "ON" ==> row[2] == r.uptime && row[3] == r.voltage && row[4] == r.current && row[5] == r.leak
    ensures r.status != "ON" ==> row[2] == "0" && row[3] == "0" && row[4] == "0" && row[5] == "0"
  {
    if r.status == "ON" then [stamp, "1", r.uptime, r.voltage, r.current, r.leak]
    else [stamp, "0", "0", "0", "0", "0"]
  }

  /** `get_last_data_from_csv`: fields 1 to 5 of the last row; five "" when the file is
      missing, holds one row or none, or when its last row is too short (the index
      error is caught). */
  function LastData(f: File): (v: seq<string>)
    ensures |v| == 5
    ensures (f.Absent? || |f.rows| <= 1) ==> v == ["", "", "", "", ""]
    ensures f.Present? && |f.rows| > 1 && |f.rows[|f.rows| - 1]| < 6 ==> v == ["", "", "", "", ""]
    ensures f.Present? && |f.rows| > 1 && |f.rows[|f.rows| - 1]| >= 6 ==> v == f.rows[|f.rows| - 1][1..6]
  {
    if f.Present? && |f.rows| > 1 && |f.rows[|f.rows| - 1]| >= 6 then f.rows[|f.rows| - 1][1..6]
    else ["", "", "", "", ""]
  }

  /** Reading back the row just logged gives the values logged, unless the log existed
      but was empty (its only row is then taken for the header). */
  lemma LastDataAfterAppend(f: File, stamp: string, r: Reading)
    requires f.Absent? || |f.rows| > 0
    ensures LastData(Append(f, Header, DataRow(stamp, r))) == [r.status, r.uptime, r.voltage, r.current, r.leak]
  {
    assert DataRow(stamp, r)[1..6] == [r.status, r.uptime, r.voltage, r.current, r.leak];
  }

  /** A log that exists but is empty gets no header, and its first data row never shows. */
  lemma EmptyLogHidesFirstRow(stamp: string, r: Reading)
    ensures LastData(Append(Present([]), Header, DataRow(stamp, r))) == ["", "", "", "", ""]
  {
  }

  /** What a device panel shows when the window is built. */
  datatype View = View(status: string, uptime: string, voltage: string, current: string, leak: string)

  /** The panel's initial values from the last logged row: "OFF" shows as "Авария" and a
      missing status as "Нет связи"; the other values show as logged, "" included. */
  function Startup(v: seq<string>): (w: View)
    requires |v| == 5
    ensures w.status == (if v[0] == "OFF" then "Авария" else if v[0] == "" then "Нет связи" else v[0])
    ensures w.uptime == v[1] && w.voltage == v[2] && w.current == v[3] && w.leak == v[4]
  {
    View(if v[0] == "OFF" then "Авария" else if v[0] == "" then "Нет связи" else v[0], v[1], v[2], v[3], v[4])
  }

  // ---------------------------------------------------------------------------
  // One pass of the monitoring loop

  /** The commands up to the board check, and those that read the board. */
  const Probe: seq<Sent> := [Sent("2", 2), Sent("%1", 2), Sent("ECHO", 2)]
  const Fetch: seq<Sent> := [Sent("%104", 2), Sent("1", 2), Sent("SHOW", 3)]

  /** The cleaned reply to the `k`-th read of the session. */
  function Answer(replies: seq<seq<byte>>, k: nat): string {
    CleanResponse(DecodeStrict(Reply(replies, k)))
  }

  /** What a pass comes to, given whether the connection opens, the replies and whether
      writing the logs fails: the board check reads the reply to "ECHO", the values the
      reply to "SHOW". */
  function Cycle(connected: bool, replies: seq<seq<byte>>, start: nat, csvFails: bool): (o: Outcome<Reading>)
    ensures o.Unreachable? <==> !connected
    ensures o.Polled? ==> o.failed == csvFails
  {
    if !connected then Unreachable
    else if !Contains(Answer(replies, start + 2), "04") then NoBoard
    else Polled(Read(Answer(replies, start + 5)), csvFails)
  }

  /** The status a pass leaves on the panel: a missing board and a failed log write show
      as a lost connection. */
  function Display(o: Outcome<Reading>): (shown: string)
    ensures shown in ["Нет связи", "Авария"] || (o.Polled? && shown == o.reading.status)
  {
    match o
    case Unreachable => "Нет связи"
    case NoBoard => "Нет связи"
    case Polled(r, failed) => if failed then "Нет связи" else if r.status == "OFF" then "Авария" else r.status
  }

  /** Which kind of pass the replies make. */
  lemma CycleKind(connected: bool, replies: seq<seq<byte>>, start: nat, csvFails: bool)
    ensures Cycle(connected, replies, start, csvFails).Unreachable? <==> !connected
    ensures Cycle(connected, replies, start, csvFails).NoBoard? <==>
      connected && !Contains(Answer(replies, start + 2), "04")
    ensures Cycle(connected, replies, start, csvFails).Polled? <==>
      connected && Contains(Answer(replies, start + 2), "04")
  {
  }

  /** The commands of a pass: none without a connection; otherwise "2", "%1", "ECHO"
      first and in that order; "SHOW" only when the board was found; and a pass that
      finds no board sleeps two intervals and closes the session twice. */
  lemma ScriptShape(o: Outcome<Reading>)
    ensures o.Unreachable? ==> Script(o, Probe, Fetch) == [] && Naps(o) == 1
    ensures !o.Unreachable? ==> |Script(o, Probe, Fetch)| >= 3 && Script(o, Probe, Fetch)[..3] == Probe
    ensures Sent("SHOW", 3) in Script(o, Probe, Fetch) <==> o.Polled?
    ensures o.NoBoard? ==> Naps(o) == 2 && Closes(o) == 2
  {
    assert Sent("SHOW", 3) !in Probe;
    if o.Polled? {
      assert (Probe + Fetch)[5] == Sent("SHOW", 3);
      assert (Probe + Fetch)[..3] == Probe;
    }
  }

  /** The panel shows "Нет связи" exactly when the pass did not complete cleanly; a clean
      pass shows "Авария" exactly when the board reports OFF. */
  lemma DisplayMeaning(o: Outcome<Reading>)
    requires o.Polled? ==> o.reading.status == "ON" || o.reading.status == "OFF"
    ensures Display(o) == "Нет связи" <==> !o.Polled? || o.failed
    ensures o.Polled? && !o.failed ==> (Display(o) == "Авария" <==> o.reading.status == "OFF")
    ensures Display(o) in {"Нет связи", "Авария", "ON"}
  {
    if o.Polled? && !o.failed {
      var d := Display(o);
      assert d == "Авария" || d == "ON";
      assert d[0] != "Нет связи"[0];
    }
  }

  /** After a pass that logged its reading, rebuilding the window shows what the pass
      showed. */
  lemma RestartShowsLastPoll(f: File, stamp: string, show: string)
    requires f.Absent? || |f.rows| > 0
    ensures var r := Read(show);
      Startup(LastData(Append(f, Header, DataRow(stamp, r)))) ==
        View(Display(Polled(r, false)), r.uptime, r.voltage, r.current, r.leak)
  {
    var r := Read(show);
    LastDataAfterAppend(f, stamp, r);
  }

  /** `send_command`: writes the command, waits, reads and decodes ("" when the reply
      is not ASCII). */
  method SendCommand(link: Link, command: string, delay: nat) returns (reply: string)
    modifies link
    ensures reply == DecodeStrict(Reply(link.replies, old(link.read)))
    ensures link.read == old(link.read) + 1
    ensures link.sent == old(link.sent) + [Sent(command, delay)]
    ensures link.closes == old(link.closes)
  {
    var bytes := link.Exchange(command, delay);
    reply := DecodeStrict(bytes);
  }

  /** The log after the three commands of `Survey`, one at a time. */
  lemma ProbeLogged(s: seq<Sent>)
    ensures s + [Sent("2", 2)] + [Sent("%1", 2)] + [Sent("ECHO", 2)] == s + Probe
  {
  }

  /** The log after the three commands of `ReadBoard`, one at a time. */
  lemma FetchLogged(s: seq<Sent>)
    ensures s + Probe + [Sent("%104", 2)] + [Sent("1", 2)] + [Sent("SHOW", 3)] == s + (Probe + Fetch)
  {
  }

  /** Enter the menu, select the board list and ask for it with "ECHO"; `found` tells
      whether the cleaned list mentions board 04. */
  method Survey(link: Link) returns (found: bool)
    modifies link
    ensures found == Contains(Answer(link.replies, old(link.read) + 2), "04")
    ensures link.read == old(link.read) + |Probe|
    ensures link.sent == old(link.sent) + Probe
    ensures link.closes == old(link.closes)
  {
    ghost var sent0 := link.sent;
    var _ := SendCommand(link, "2", 2);
    var _ := SendCommand(link, "%1", 2);
    var echo := SendCommand(link, "ECHO", 2);
    found := Contains(CleanResponse(echo), "04");
    ProbeLogged(sent0);
  }

  /** Select board 04, enter it, ask for "SHOW" and extract the values. */
  method ReadBoard(link: Link, ghost start: nat, ghost sent0: seq<Sent>) returns (r: Reading)
    requires link.read == start + |Probe| && link.sent == sent0 + Probe
    modifies link
    ensures r == Read(Answer(link.replies, start + 5))
    ensures link.read == start + |Probe + Fetch|
    ensures link.sent == sent0 + (Probe + Fetch)
    ensures link.closes == old(link.closes)
  {
    var _ := SendCommand(link, "%104", 2);
    var _ := SendCommand(link, "1", 2);
    var show := SendCommand(link, "SHOW", 3);
    FetchLogged(sent0);
    r := Read(CleanResponse(show));
  }

  /** The inputs of one pass that come from outside: whether the connection opens, the
      two timestamps (local and UTC), whether the UTC option is on when the pass reads
      it, and whether each log can be opened for appending during the pass. */
  datatype Tick = Tick(connected: bool, stamp: string, utcStamp: string,
                       utcEnabled: bool, dataWritable: bool, utcWritable: bool)

  /** Whether a pass that reads the board ends in an exception from a log write. */
  predicate CsvFails(t: Tick) {
    !t.dataWritable || (t.utcEnabled && !t.utcWritable)
  }

  /** Whether a pass that reads the board writes its row to the data log, and to the
      UTC log: the UTC row is written only after the data row. */
  predicate DataLogged(t: Tick) { t.dataWritable }
  predicate UtcLogged(t: Tick) { t.dataWritable && t.utcEnabled && t.utcWritable }

  /** The outcome of a pass from its tick and the number of replies read before it. */
  function PassOf(replies: seq<seq<byte>>): (Tick, nat) -> Outcome<Reading> {
    (t: Tick, k: nat) => Cycle(t.connected, replies, k, CsvFails(t))
  }

  lemma PassOfIs(replies: seq<seq<byte>>, t: Tick, k: nat, o: Outcome<Reading>)
    requires o == Cycle(t.connected, replies, k, CsvFails(t))
    ensures o == PassOf(replies)(t, k)
  {
  }

  /** The row of each log for a pass that read the board. */
  function DataLine(t: Tick, r: Reading): Row { DataRow(t.stamp, r) }
  function UtcLine(t: Tick, r: Reading): Row { UtcRow(t.utcStamp, r) }

  /** The worker of one device panel: the five labels of the panel, the intervals slept and
      the two logs. */
  class Monitor {
    var panel: View
    var sleeps: nat
    var data: File
    var utc: File

    /** The panel as the window builds it, from the last row of the device's log. */
    constructor(data: File, utc: File)
      ensures panel == Startup(LastData(data))
      ensures this.data == data && this.utc == utc && sleeps == 0
    {
      panel := Startup(LastData(data));
      sleeps := 0;
      this.data := data;
      this.utc := utc;
    }

    /** One pass of `device_monitoring`'s loop. */
    method Poll(link: Link, tick: Tick) returns (o: Outcome<Reading>)
      modifies this, link
      ensures o == Cycle(tick.connected, link.replies, old(link.read), CsvFails(tick))
      ensures link.sent == old(link.sent) + Script(o, Probe, Fetch)
      ensures link.read == old(link.read) + |Script(o, Probe, Fetch)|
      ensures link.closes == old(link.closes) + Closes(o)
      ensures sleeps == old(sleeps) + Naps(o)
      ensures o.Polled? ==>
        panel == View(Display(o), o.reading.uptime, o.reading.voltage, o.reading.current, o.reading.leak)
      ensures !o.Polled? ==> panel == old(panel).(status := Display(o))
      ensures data == if o.Polled? && tick.dataWritable then Append(old(data), Header, DataRow(tick.stamp, o.reading)) else old(data)
      ensures utc == if o.Polled? && tick.dataWritable && tick.utcEnabled && tick.utcWritable
        then Append(old(utc), Header, UtcRow(tick.utcStamp, o.reading)) else old(utc)
    {
      if !tick.connected {
        panel := panel.(status := "Нет связи");
        sleeps := sleeps + 1;
        return Unreachable;
      }
      ghost var start, sent0 := link.read, link.sent;
      var found := Survey(link);
      if !found {
        Miss(link);
        o := NoBoard;
      } else {
        o := Complete(link, tick, start, sent0);
        assert Script(o, Probe, Fetch) == Probe + Fetch;
      }
    }

    /** The end of a pass that finds no board: the status shows a lost connection, and
        the session is closed and an interval slept twice, since `continue` leaves the
        `try` and the `finally` block runs as well. */
    method Miss(link: Link)
      modifies this, link
      ensures panel == old(panel).(status := Display(NoBoard))
      ensures sleeps == old(sleeps) + Naps<Reading>(NoBoard)
      ensures link.closes == old(link.closes) + Closes<Reading>(NoBoard)
      ensures link.read == old(link.read) && link.sent == old(link.sent)
      ensures data == old(data) && utc == old(utc)
    {
      panel := panel.(status := "Нет связи");
      link.Close();
      sleeps := sleeps + 1;
      link.Close();
      sleeps := sleeps + 1;
    }

    /** The rest of a pass whose board list mentions board 04, then the `finally` block:
        read the board, show and log the reading, close and sleep. */
    method Complete(link: Link, tick: Tick, ghost start: nat, ghost sent0: seq<Sent>) returns (o: Outcome<Reading>)
      requires link.read == start + |Probe| && link.sent == sent0 + Probe
      modifies this, link
      ensures o == Polled(Read(Answer(link.replies, start + 5)), CsvFails(tick))
      ensures link.read == start + |Probe + Fetch| && link.sent == sent0 + (Probe + Fetch)
      ensures link.closes == old(link.closes) + Closes(o)
      ensures sleeps == old(sleeps) + Naps(o)
      ensures panel == View(Display(o), o.reading.uptime, o.reading.voltage, o.reading.current, o.reading.leak)
      ensures data == if tick.dataWritable then Append(old(data), Header, DataRow(tick.stamp, o.reading)) else old(data)
      ensures utc == if tick.dataWritable && tick.utcEnabled && tick.utcWritable
        then Append(old(utc), Header, UtcRow(tick.utcStamp, o.reading)) else old(utc)
    {
      var r := ReadBoard(link, start, sent0);
      o := Conclude(link, r, tick);
    }

    /** Shows and logs the reading, then runs the `finally` block. */
    method Conclude(link: Link, r: Reading, tick: Tick) returns (o: Outcome<Reading>)
      modifies this, link
      ensures o == Polled(r, CsvFails(tick))
      ensures link.read == old(link.read) && link.sent == old(link.sent)
      ensures link.closes == old(link.closes) + Closes(o)
      ensures sleeps == old(sleeps) + Naps(o)
      ensures panel == View(Display(o), r.uptime, r.voltage, r.current, r.leak)
      ensures data == if tick.dataWritable then Append(old(data), Header, DataRow(tick.stamp, r)) else old(data)
      ensures utc == if tick.dataWritable && tick.utcEnabled && tick.utcWritable
        then Append(old(utc), Header, UtcRow(tick.utcStamp, r)) else old(utc)
    {
      var failed := Publish(r, tick);
      o := Polled(r, failed);
      Finish(link);
    }

    /** The `finally` block: close the session and sleep one interval. */
    method Finish(link: Link)
      modifies this, link
      ensures link.closes == old(link.closes) + 1 && sleeps == old(sleeps) + 1
      ensures link.read == old(link.read) && link.sent == old(link.sent)
      ensures panel == old(panel) && data == old(data) && utc == old(utc)
    {
      link.Close();
      sleeps := sleeps + 1;
    }

    /** Shows a reading on the panel and logs it; `failed` tells whether a log write
        raised, in which case the status shows "Нет связи" and nothing later is written. */
    method Publish(r: Reading, tick: Tick) returns (failed: bool)
      modifies this
      ensures failed == CsvFails(tick)
      ensures panel == View(Display(Polled(r, failed)), r.uptime, r.voltage, r.current, r.leak)
      ensures sleeps == old(sleeps)
      ensures data == if tick.dataWritable then Append(old(data), Header, DataRow(tick.stamp, r)) else old(data)
      ensures utc == if tick.dataWritable && tick.utcEnabled && tick.utcWritable
        then Append(old(utc), Header, UtcRow(tick.utcStamp, r)) else old(utc)
    {
      panel := View(if r.status == "OFF" then "Авария" else r.status, r.uptime, r.voltage, r.current, r.leak);
      // The two files as the writes leave them; the first write that raises ends them.
      var d, u := data, utc;
      failed := false;
      if tick.dataWritable {
        d := Append(d, Header, DataRow(tick.stamp, r));
        if tick.utcEnabled {
          if tick.utcWritable {
            u := Append(u, Header, UtcRow(tick.utcStamp, r));
          } else {
            failed := true;
          }
        }
      } else {
        failed := true;
      }
      data, utc := d, u;
      if failed {
        panel := panel.(status := "Нет связи");
      }
    }

    /** One pass of `device_monitoring`'s loop, with what the passes before it have done
        so far: the new pass continues the run's outcomes, commands, closes, naps and log
        rows. */
    method Advance(link: Link, ticks: seq<Tick>, os: seq<Outcome<Reading>>, 
                   ghost start: nat, ghost sent0: seq<Sent>, ghost closes0: nat, ghost sleeps0: nat,
                   ghost data0: File, ghost utc0: File) returns (o: Outcome<Reading>)
      modifies this, link
      requires |os| < |ticks|
      requires os == Passes(ticks[..|os|], PassOf(link.replies), start, Probe, Fetch)
      requires link.read == start + |Scripts(os, Probe, Fetch)|
      requires link.sent == sent0 + Scripts(os, Probe, Fetch)
      requires link.closes == closes0 + TotalCloses(os)
      requires sleeps == sleeps0 + TotalNaps(os)
      requires data == AppendAll(data0, Header, Rows(ticks[..|os|], os, DataLine, DataLogged))
      requires utc == AppendAll(utc0, Header, Rows(ticks[..|os|], os, UtcLine, UtcLogged))
      ensures os + [o] == Passes(ticks[..|os| + 1], PassOf(link.replies), start, Probe, Fetch)
      ensures link.read == start + |Scripts(os + [o], Probe, Fetch)|
      ensures link.sent == sent0 + Scripts(os + [o], Probe, Fetch)
      ensures link.closes == closes0 + TotalCloses(os + [o])
      ensures sleeps == sleeps0 + TotalNaps(os + [o])
      ensures data == AppendAll(data0, Header, Rows(ticks[..|os| + 1], os + [o], DataLine, DataLogged))
      ensures utc == AppendAll(utc0, Header, Rows(ticks[..|os| + 1], os + [o], UtcLine, UtcLogged))
    {
      ghost var k, d, u := link.read, data, utc;
      o := Poll(link, ticks[|os|]);
      PassOfIs(link.replies, ticks[|os|], k, o);
      PassesStep(ticks, |os|, os, o, PassOf(link.replies), start, Probe, Fetch, k);
      LogStep(data0, d, Header, ticks, os, o, DataLine, DataLogged);
      LogStep(utc0, u, Header, ticks, os, o, UtcLine, UtcLogged);
      Extend(sent0, os, o, Probe, Fetch);
    }

    /** The worker's endless loop, run for as many passes as `ticks` describes: the
        outcomes are those of the passes in turn, each reading the replies where the one
        before stopped; the commands, closes and sleeps add up pass by pass; and each
        log holds what it held before followed by the rows of the passes that read the
        board and could write it, with its header written once. */
    method Run(link: Link, ticks: seq<Tick>) returns (os: seq<Outcome<Reading>>)
      modifies this, link
      ensures os == Passes(ticks, PassOf(link.replies), old(link.read), Probe, Fetch)
      ensures link.read == old(link.read) + |Scripts(os, Probe, Fetch)|
      ensures link.sent == old(link.sent) + Scripts(os, Probe, Fetch)
      ensures link.closes == old(link.closes) + TotalCloses(os)
      ensures sleeps == old(sleeps) + TotalNaps(os)
      ensures old(sleeps) + |ticks| <= sleeps
      ensures data == AppendAll(old(data), Header, Rows(ticks, os, DataLine, DataLogged))
      ensures utc == AppendAll(old(utc), Header, Rows(ticks, os, UtcLine, UtcLogged))
      ensures old(data).Absent? && Rows(ticks, os, DataLine, DataLogged) != [] ==>
        data == Present([Header] + Rows(ticks, os, DataLine, DataLogged))
      ensures old(data).Present? ==> data == Present(old(data).rows + Rows(ticks, os, DataLine, DataLogged))
      ensures old(utc).Absent? && Rows(ticks, os, UtcLine, UtcLogged) != [] ==>
        utc == Present([Header] + Rows(ticks, os, UtcLine, UtcLogged))
      ensures old(utc).Present? ==> utc == Present(old(utc).rows + Rows(ticks, os, UtcLine, UtcLogged))
    {
      os := [];
      var i := 0;
      ghost var pass := PassOf(link.replies);
      while i < |ticks|
        invariant i == |os| <= |ticks|
        invariant os == Passes(ticks[..i], pass, old(link.read), Probe, Fetch)
        invariant link.read == old(link.read) + |Scripts(os, Probe, Fetch)|
        invariant link.sent == old(link.sent) + Scripts(os, Probe, Fetch)
        invariant link.closes == old(link.closes) + TotalCloses(os)
        invariant sleeps == old(sleeps) + TotalNaps(os)
        invariant data == AppendAll(old(data), Header, Rows(ticks[..i], os, DataLine, DataLogged))
        invariant utc == AppendAll(old(utc), Header, Rows(ticks[..i], os, UtcLine, UtcLogged))
      {
        var o := Advance(link, ticks, os, old(link.read), old(link.sent), old(link.closes), old(sleeps), old(data), old(utc));
        os := os + [o];
        i := i + 1;
      }
      assert ticks[..i] == ticks;
      TotalNapsCount(os);
      AppendAllShape(old(data), Header, Rows(ticks, os, DataLine, DataLogged));
      AppendAllShape(old(utc), Header, Rows(ticks, os, UtcLine, UtcLogged));
    }
  }

  // ---------------------------------------------------------------------------
  // The device list

  /** The messages of `add_device` (the first is written in two parts, which keeps its
      characters within the verifier's reach). */
  const FullMessage: string := "Достигнуто максимальное " + "количество устройств!"
  const BlankMessage: string := "Поля IP и имя не могут быть пустыми!"
  function AddedMessage(name: string): string { "Устройство " + name + " добавлено!" }

  /** `add_device`: the entries are taken as typed, then the list is asked to take the
      device with a cap of three; the message says why it was refused or which device
      was added. */
  method AddDevice(list: DeviceList, ip: string, name: string) returns (message: string)
    modifies list
    ensures message == FullMessage <==> |old(list.devices)| >= MaxDevices
    ensures message == BlankMessage <==> |old(list.devices)| < MaxDevices && (ip == "" || name == "")
    ensures list.devices != old(list.devices) <==> message == AddedMessage(name)
    ensures list.devices != old(list.devices) ==> list.devices == old(list.devices) + [Device(ip, name, TelnetPort)]
    ensures |old(list.devices)| < MaxDevices && ip != "" && name != "" ==>
      message == AddedMessage(name) && list.devices == old(list.devices) + [Device(ip, name, TelnetPort)]
  {
    var a := list.Add(ip, name, MaxDevices);
    var added := AddedMessage(name);
    assert added[0] == 'У' && FullMessage[0] == 'Д' && BlankMessage[0] == 'П';
    match a
    case Full =>
      message := FullMessage;
    case Blank =>
      message := BlankMessage;
    case Added =>
      message := added;
      assert |list.devices| == |old(list.devices)| + 1;
  }
}
