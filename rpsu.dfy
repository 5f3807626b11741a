/** The monitor of `RPSU.py` (version 0.2): up to five devices, a temperature reading
    taken from the modem before the RPSU board is selected, and a temperature alert. */
module Rpsu {
  import opened Text
  import opened Wrappers
  import Sanitize
  import P = Pattern
  import opened Transport
  import opened CsvLog
  import opened Registry
  import opened Polling

  const MaxDevices: nat := 5

  // ---------------------------------------------------------------------------
  // Replies and their sanitising

  /** `bytes.decode('ascii', errors='ignore')`: every byte outside ASCII is dropped. */
  function Decode(bs: seq<byte>): (r: string)
    ensures |r| <= |bs|
    ensures forall k :: 0 <= k < |r| ==> r[k] < '\U{80}'
    ensures (forall k :: 0 <= k < |bs| ==> bs[k] < 128) ==>
      |r| == |bs| && forall k :: 0 <= k < |bs| ==> r[k] == bs[k] as char
  {
    if bs == [] then []
    else if bs[0] < 128 then [bs[0] as char] + Decode(bs[1..])
    else Decode(bs[1..])
  }

  /** Decoding works byte by byte: each piece of a reply decodes on its own. */
  lemma {:induction false} DecodeAppend(a: seq<byte>, b: seq<byte>)
    ensures Decode(a + b) == Decode(a) + Decode(b)
    decreases |a|
  {
    if a == [] {
      assert a + b == b;
    } else {
      assert (a + b)[0] == a[0] && (a + b)[1..] == a[1..] + b;
      DecodeAppend(a[1..], b);
    }
  }

  /** A byte below 128 becomes its character and any other byte is dropped, so the ASCII
      bytes of a reply survive in order around the bytes that are not. */
  lemma DecodeOne(b: byte)
    ensures Decode([b]) == if b < 128 then [b as char] else []
  {
  }

  /** A reply with one byte outside ASCII between two ASCII letters keeps both letters. */
  lemma DecodeSkipsNonAscii()
    ensures Decode([0x41, 0xC3, 0x42]) == "AB"
  {
    var bs: seq<byte> := [0x41, 0xC3, 0x42];
    assert bs == [0x41] + [0xC3] + [0x42];
    DecodeAppend([0x41] + [0xC3], [0x42]);
    DecodeAppend([0x41], [0xC3]);
    DecodeOne(0x41);
    DecodeOne(0xC3);
    DecodeOne(0x42);
  }

  /** `clean_response`: printable ASCII, line feeds and carriage returns survive, and
      nothing is left of white space at the ends. */
  function CleanResponse(s: string): (r: string)
    ensures forall c :: c in r ==> ' ' <= c <= '~' || c == '\n' || c == '\r'
    ensures Trimmed(r)
  {
    Sanitize.Clean(s, Sanitize.PrintableOrLineBreak)
  }

  /** Cleaning a cleaned reply changes nothing. */
  lemma CleanResponseIdempotent(s: string)
    ensures CleanResponse(CleanResponse(s)) == CleanResponse(s)
  {
    Sanitize.CleanIdempotent(s, Sanitize.PrintableOrLineBreak);
  }

  /** Colour codes around a reading are deleted and the reading is kept. */
  lemma CleanRemovesColour()
    ensures CleanResponse(Sanitize.Red + "Voltage: 12" + Sanitize.Reset) == "Voltage: 12"
  {
    Sanitize.ColouredVoltage(Sanitize.PrintableOrLineBreak);
  }

  /** Line breaks inside a reply are kept. */
  lemma CleanKeepsLineBreaks()
    ensures CleanResponse("A\r\nB") == "A\r\nB"
  {
    Sanitize.LineBreaksKept();
  }

  // ---------------------------------------------------------------------------
  // Field extractors

  /** `key\s*[:=]\s*([-\d.]+)`, ignoring case. */
  function ValuePattern(key: string): P.Pattern {
    P.Pattern(key, true, P.Run(P.Number), true)
  }

  const UptimePattern: P.Pattern := P.Pattern("RPSU Uptime", false, P.Run(P.Digit), true)
  const StatusPattern: P.Pattern := P.Pattern("RPSU Status", false, P.OnOff, true)
  const TemperaturePattern: P.Pattern := P.Pattern("Temperature", true, P.RunUnit(P.Decimal, 'C'), true)

  /** `extract_value`: a non-empty run of `-`, digits and `.`, or "0". */
  function ExtractValue(s: string, key: string): (r: string)
    ensures r == "0" || (|r| > 0 && forall k :: 0 <= k < |r| ==> r[k] == '-' || r[k] == '.' || IsDigit(r[k]))
  {
    P.Search(s, ValuePattern(key)).GetOr("0")
  }

  /** `extract_value` yields the capture of the leftmost match, "0" when there is none. */
  lemma ExtractValueIsLeftmost(s: string, key: string)
    ensures ExtractValue(s, key) == P.Leftmost(s, ValuePattern(key)).GetOr("0")
  {
    P.SearchIsLeftmost(s, ValuePattern(key));
  }

  /** `extract_uptime`: a non-empty run of digits, or "0". */
  function ExtractUptime(s: string): (r: string)
    ensures r == "0" || (|r| > 0 && forall k :: 0 <= k < |r| ==> IsDigit(r[k]))
  {
    P.Search(s, UptimePattern).GetOr("0")
  }

  lemma ExtractUptimeIsLeftmost(s: string)
    ensures ExtractUptime(s) == P.Leftmost(s, UptimePattern).GetOr("0")
  {
    P.SearchIsLeftmost(s, UptimePattern);
  }

  /** `extract_rpsu_status`: always exactly "ON" or "OFF". */
  function ExtractStatus(s: string): (r: string)
    ensures r == "ON" || r == "OFF"
  {
    match P.Search(s, StatusPattern)
    case Some(w) =>
      if |w| == 2 then UpperWord(w, "ON", true); UpperCase(w)
      else UpperWord(w, "OFF", true); UpperCase(w)
    case None => "OFF"
  }

  /** The status is "ON" exactly when the leftmost match reads "on" in some case; no
      match at all reads as "OFF". */
  lemma ExtractStatusIsLeftmost(s: string)
    ensures ExtractStatus(s) == "ON" <==> P.Leftmost(s, StatusPattern).Some? && |P.Leftmost(s, StatusPattern).value| == 2
  {
    P.SearchIsLeftmost(s, StatusPattern);
  }

  /** Number of `.` characters. */
  function Dots(s: string): nat {
    if s == [] then 0 else Dots(s[1..]) + (if s[0] == '.' then 1 else 0)
  }

  /** Whether Python's `float()` accepts a run of digits and dots: at most one dot and
      at least one digit ("." and "1.2.3" are refused). */
  predicate IsFloat(run: string) {
    Dots(run) <= 1 && exists k :: 0 <= k < |run| && IsDigit(run[k])
  }

  lemma IsFloatExamples()
    ensures IsFloat("40.5") && IsFloat("12") && IsFloat("7.") && IsFloat(".5")
    ensures !IsFloat(".") && !IsFloat("1.2.3") && !IsFloat("")
  {
    assert "40.5"[0] == '4' && "12"[0] == '1' && "7."[0] == '7' && ".5"[1] == '5';
  }

  /** `extract_temperature`: the run before the `C` unit, read as a number and written
      back with one decimal; "0.0" when nothing matches or the run is not a number.
      `render` stands for `f"{float(run):.1f}"`. */
  function ExtractTemperature(s: string, render: string -> string): (r: string)
    ensures P.Search(s, TemperaturePattern).None? ==> r == "0.0"
  {
    match P.Search(s, TemperaturePattern)
    case Some(run) => if IsFloat(run) then render(run) else "0.0"
    case None => "0.0"
  }

  lemma ExtractTemperatureIsLeftmost(s: string, render: string -> string)
    ensures ExtractTemperature(s, render) ==
      match P.Leftmost(s, TemperaturePattern)
      case Some(run) => if IsFloat(run) then render(run) else "0.0"
      case None => "0.0"
  {
    P.SearchIsLeftmost(s, TemperaturePattern);
  }

  // ---------------------------------------------------------------------------
  // The temperature alert

  /** Value of a run of decimal digits. */
  function DigitsValue(s: string): nat
    requires forall k :: 0 <= k < |s| ==> IsDigit(s[k])
  {
    if s == [] then 0
    else
      var d := s[|s| - 1];
      assert IsDigit(d);
      DigitsValue(s[..|s| - 1]) * 10 + (d as int - '0' as int)
  }

  /** What `:.1f` writes for a finite value: digits, a dot, one digit. */
  predicate OneDecimal(t: string) {
    && |t| >= 3 && t[|t| - 2] == '.' && IsDigit(t[|t| - 1])
    && forall k :: 0 <= k < |t| - 2 ==> IsDigit(t[k])
  }

  /** The value of a one-decimal string in tenths. */
  function Tenths(t: string): nat
    requires OneDecimal(t)
  {
    var d := t[|t| - 1];
    assert IsDigit(d);
    DigitsValue(t[..|t| - 2]) * 10 + (d as int - '0' as int)
  }

  /** `float(t) > 40.0` for what the extractor writes: a one-decimal number above 40,
      or "inf" for a run too long for a double. */
  predicate Hot(t: string) {
    t == "inf" || (OneDecimal(t) && Tenths(t) > 400)
  }

  lemma HotExamples()
    ensures Hot("40.1") && !Hot("40.0") && !Hot("0.0") && Hot("inf") && Hot("123.4")
  {
    assert "4"[..0] == "" && DigitsValue("4") == 4;
    assert "40"[..1] == "4" && DigitsValue("40") == 40;
    assert "40.1"[..2] == "40" && Tenths("40.1") == 401;
    assert "40.0"[..2] == "40" && Tenths("40.0") == 400;
    assert "0"[..0] == "" && DigitsValue("0") == 0;
    assert "0.0"[..1] == "0" && Tenths("0.0") == 0;
    assert "1"[..0] == "" && DigitsValue("1") == 1;
    assert "12"[..1] == "1" && DigitsValue("12") == 12;
    assert "123"[..2] == "12" && DigitsValue("123") == 123;
    assert "123.4"[..3] == "123" && Tenths("123.4") == 1234;
  }

  // ---------------------------------------------------------------------------
  // Rows and the startup view

  /** The values one successful pass extracts. */
  datatype Reading = Reading(status: string, uptime: string, voltage: string, current: string, leak: string, temperature: string)

  function Read(show: string, temperature: string): (r: Reading)
    ensures r.status == "ON" || r.status == "OFF"
    ensures r.uptime != "" && r.voltage != "" && r.current != "" && r.leak != ""
    ensures r.temperature == temperature
  {
    Reading(ExtractStatus(show), ExtractUptime(show), ExtractValue(show, "Voltage"),
            ExtractValue(show, "Current"), ExtractValue(show, "Leak Current"), temperature)
  }

  const Header: Row := ["Timestamp", "Status", "Uptime", "Voltage", "Current", "Leak Current", "Temperature"]

  function DataRow(stamp: string, r: Reading): (row: Row)
    ensures |row| == |Header| && row[0] == stamp
  {
    [stamp, r.status, r.uptime, r.voltage, r.current, r.leak, r.temperature]
  }

  /** The row of the UTC log: status 1 exactly when the status is "ON"; otherwise
      uptime, voltage, current and leak current are written as 0, while the temperature
      is always written as read. */
  function UtcRow(stamp: string, r: Reading): (row: Row)
    ensures |row| == 7 && row[0] == stamp && row[6] == r.temperature
    ensures row[1] == (if r.status == "ON" then "1" else "0")
    ensures r.status == "ON" ==> row[2] == r.uptime && row[3] == r.voltage && row[4] == r.current && row[5] == r.leak
    ensures r.status != "ON" ==> row[2] == "0" && row[3] == "0" && row[4] == "0" && row[5] == "0"
  {
    if r.status == "ON" then [stamp, "1", r.uptime, r.voltage, r.current, r.leak, r.temperature]
    else [stamp, "0", "0", "0", "0", "0", r.temperature]
  }

  /** `get_last_data_from_csv`: fields 1 to 6 of the last row, "" for each field the row
      lacks; six "" when the file is missing or holds one row or none. */
  function LastData(f: File): (v: seq<string>)
    ensures |v| == 6
    ensures (f.Absent? || |f.rows| <= 1) ==> v == ["", "", "", "", "", ""]
    ensures f.Present? && |f.rows| > 1 ==>
      forall i :: 0 <= i < 6 ==> v[i] == FieldOr(f.rows[|f.rows| - 1], i + 1)
  {
    if f.Present? && |f.rows| > 1 then
      var last := f.rows[|f.rows| - 1];
      [FieldOr(last, 1), FieldOr(last, 2), FieldOr(last, 3), FieldOr(last, 4), FieldOr(last, 5), FieldOr(last, 6)]
    else ["", "", "", "", "", ""]
  }

  /** Reading back the row just logged gives the values logged, unless the log existed
      but was empty (its only row is then taken for the header). */
  lemma LastDataAfterAppend(f: File, stamp: string, r: Reading)
    requires f.Absent? || |f.rows| > 0
    ensures LastData(Append(f, Header, DataRow(stamp, r))) == [r.status, r.uptime, r.voltage, r.current, r.leak, r.temperature]
  {
  }

  /** A log that exists but is empty gets no header, and its first data row never shows. */
  lemma EmptyLogHidesFirstRow(stamp: string, r: Reading)
    ensures LastData(Append(Present([]), Header, DataRow(stamp, r))) == ["", "", "", "", "", ""]
  {
  }

  /** What a device panel shows when the window is built. */
  datatype View = View(status: string, uptime: string, voltage: string, current: string, leak: string, temperature: string)

  /** `x or default` */
  function Or(x: string, default: string): string {
    if x == "" then default else x
  }

  /** The panel's initial values from the last logged row: "OFF" shows as "Авария" and a
      missing status as "Нет данных"; a missing value shows as "—", a missing
      temperature as "0.0". */
  function Startup(v: seq<string>): (w: View)
    requires |v| == 6
    ensures w.status == (if v[0] == "OFF" then "Авария" else if v[0] == "" then "Нет данных" else v[0])
    ensures w.uptime == Or(v[1], "—") && w.voltage == Or(v[2], "—") && w.current == Or(v[3], "—")
    ensures w.leak == Or(v[4], "—") && w.temperature == Or(v[5], "0.0")
  {
    View(if v[0] == "OFF" then "Авария" else Or(v[0], "Нет данных"),
         Or(v[1], "—"), Or(v[2], "—"), Or(v[3], "—"), Or(v[4], "—"), Or(v[5], "0.0"))
  }

  // ---------------------------------------------------------------------------
  // One pass of the monitoring loop

  /** The commands up to the board check, and those that read the board. */
  const Probe: seq<Sent> := [Sent("2", 1), Sent("STATUS", 1), Sent("%1", 1), Sent("ECHO", 1)]
  const Fetch: seq<Sent> := [Sent("%104", 1), Sent("1", 1), Sent("SHOW", 2)]

  /** The cleaned reply to the `k`-th read of the session. */
  function Answer(replies: seq<seq<byte>>, k: nat): string {
    CleanResponse(Decode(Reply(replies, k)))
  }

  /** What a pass comes to, given whether the connection opens, the replies and whether
      writing the logs fails. The temperature comes from the reply to "STATUS", the
      board check from the reply to "ECHO", the rest from the reply to "SHOW". */
  function Cycle(connected: bool, replies: seq<seq<byte>>, start: nat, render: string -> string, csvFails: bool): (o: Outcome<Reading>)
    ensures o.Unreachable? <==> !connected
    ensures o.Polled? ==> o.failed == csvFails
  {
    if !connected then Unreachable
    else if !Contains(Answer(replies, start + 3), "04") then NoBoard
    else Polled(Read(Answer(replies, start + 6), ExtractTemperature(Answer(replies, start + 1), render)), csvFails)
  }

  /** The status a pass leaves on the panel. */
  function Display(o: Outcome<Reading>): (shown: string)
    ensures shown in ["Нет связи", "Нет RPSU", "Ошибка", "Авария"] || (o.Polled? && shown == o.reading.status)
  {
    match o
    case Unreachable => "Нет связи"
    case NoBoard => "Нет RPSU"
    case Polled(r, failed) => if failed then "Ошибка" else if r.status == "OFF" then "Авария" else r.status
  }

  /** Which kind of pass the replies make: no pass without a connection, and a missing
      board exactly when the cleaned echo does not mention board 04. */
  lemma CycleKind(connected: bool, replies: seq<seq<byte>>, start: nat, render: string -> string, csvFails: bool)
    ensures Cycle(connected, replies, start, render, csvFails).Unreachable? <==> !connected
    ensures Cycle(connected, replies, start, render, csvFails).NoBoard? <==>
      connected && !Contains(Answer(replies, start + 3), "04")
    ensures Cycle(connected, replies, start, render, csvFails).Polled? <==>
      connected && Contains(Answer(replies, start + 3), "04")
  {
  }

  /** The commands of a pass: none without a connection; otherwise "2", "STATUS", "%1",
      "ECHO" first and in that order; "SHOW" only when the board was found; and a pass
      that finds no board sleeps two intervals and closes the session twice. */
  lemma ScriptShape(o: Outcome<Reading>)
    ensures o.Unreachable? ==> Script(o, Probe, Fetch) == [] && Naps(o) == 1
    ensures !o.Unreachable? ==> |Script(o, Probe, Fetch)| >= 4 && Script(o, Probe, Fetch)[..4] == Probe
    ensures Sent("SHOW", 2) in Script(o, Probe, Fetch) <==> o.Polled?
    ensures o.NoBoard? ==> Naps(o) == 2 && Closes(o) == 2
  {
    assert Sent("SHOW", 2) !in Probe;
    if o.Polled? {
      assert (Probe + Fetch)[6] == Sent("SHOW", 2);
      assert (Probe + Fetch)[..4] == Probe;
    }
  }

  /** Each failure has its own status: "Нет связи" exactly when the device was
      unreachable, "Нет RPSU" exactly when the board was missing and "Ошибка" exactly
      when a log write failed; a clean pass shows "Авария" exactly when the board
      reports OFF, and "ON" otherwise. */
  lemma DisplayMeaning(o: Outcome<Reading>)
    requires o.Polled? ==> o.reading.status == "ON" || o.reading.status == "OFF"
    ensures Display(o) == "Нет связи" <==> o.Unreachable?
    ensures Display(o) == "Нет RPSU" <==> o.NoBoard?
    ensures Display(o) == "Ошибка" <==> o.Polled? && o.failed
    ensures Display(o) == "Авария" <==> o.Polled? && !o.failed && o.reading.status == "OFF"
    ensures Display(o) == "ON" <==> o.Polled? && !o.failed && o.reading.status == "ON"
  {
    var d := Display(o);
    assert "Нет связи"[0] == 'Н' && "Нет RPSU"[0] == 'Н' && "Ошибка"[0] == 'О' && "Авария"[0] == 'А' && "ON"[0] == 'O';
    assert "Нет связи"[4] != "Нет RPSU"[4];
  }

  /** After a pass that logged its reading, rebuilding the window shows what the pass
      showed. */
  lemma RestartShowsLastPoll(f: File, stamp: string, show: string, temperature: string)
    requires f.Absent? || |f.rows| > 0
    requires temperature != ""
    ensures var r := Read(show, temperature);
      Startup(LastData(Append(f, Header, DataRow(stamp, r)))) ==
        View(Display(Polled(r, false)), r.uptime, r.voltage, r.current, r.leak, r.temperature)
  {
    var r := Read(show, temperature);
    LastDataAfterAppend(f, stamp, r);
  }

  /** The log after the four commands of `Survey`, one at a time. */
  lemma ProbeLogged(s: seq<Sent>)
    ensures s + [Sent("2", 1)] + [Sent("STATUS", 1)] + [Sent("%1", 1)] + [Sent("ECHO", 1)] == s + Probe
  {
  }

  /** The log after the three commands of `ReadBoard`, one at a time. */
  lemma FetchLogged(s: seq<Sent>)
    ensures s + Probe + [Sent("%104", 1)] + [Sent("1", 1)] + [Sent("SHOW", 2)] == s + (Probe + Fetch)
  {
  }

  /** `send_command`: writes the command, waits, reads and decodes. */
  method SendCommand(link: Link, command: string, delay: nat) returns (reply: string)
    modifies link
    ensures reply == Decode(Reply(link.replies, old(link.read)))
    ensures link.read == old(link.read) + 1
    ensures link.sent == old(link.sent) + [Sent(command, delay)]
    ensures link.closes == old(link.closes)
  {
    var bytes := link.Exchange(command, delay);
    reply := Decode(bytes);
  }

  /** Steps 1 to 3 of a pass: enter the modem menu, read the temperature from the
      "STATUS" reply, select the board list and ask for it with "ECHO"; `found` tells
      whether the cleaned list mentions board 04. */
  method Survey(link: Link, render: string -> string) returns (temperature: string, found: bool)
    modifies link
    ensures temperature == ExtractTemperature(Answer(link.replies, old(link.read) + 1), render)
    ensures found == Contains(Answer(link.replies, old(link.read) + 3), "04")
    ensures link.read == old(link.read) + |Probe|
    ensures link.sent == old(link.sent) + Probe
    ensures link.closes == old(link.closes)
  {
    ghost var sent0 := link.sent;
    var _ := SendCommand(link, "2", 1);
    var statusReply := SendCommand(link, "STATUS", 1);
    temperature := ExtractTemperature(CleanResponse(statusReply), render);
    var _ := SendCommand(link, "%1", 1);
    var echo := SendCommand(link, "ECHO", 1);
    found := Contains(CleanResponse(echo), "04");
    ProbeLogged(sent0);
  }

  /** Step 4 and 5: select board 04, enter it, ask for "SHOW" and extract the values. */
  method ReadBoard(link: Link, temperature: string, ghost start: nat, ghost sent0: seq<Sent>) returns (r: Reading)
    requires link.read == start + |Probe| && link.sent == sent0 + Probe
    modifies link
    ensures r == Read(Answer(link.replies, start + 6), temperature)
    ensures link.read == start + |Probe + Fetch|
    ensures link.sent == sent0 + (Probe + Fetch)
    ensures link.closes == old(link.closes)
  {
    var _ := SendCommand(link, "%104", 1);
    var _ := SendCommand(link, "1", 1);
    var show := SendCommand(link, "SHOW", 2);
    FetchLogged(sent0);
    r := Read(CleanResponse(show), temperature);
  }

  /** The inputs of one pass that come from outside: whether the connection opens, the
      two timestamps (local and UTC), whether the UTC option is on when the pass reads
      it, and whether each log can be opened for appending during the pass. */
  datatype Tick = Tick(connected: bool, stamp: string, utcStamp: string,
                       utcEnabled: bool, dataWritable: bool, utcWritable: bool)

  /** Whether a pass that reads the board ends in an exception from a log write. */
  predicate CsvFails(t: Tick) {
    !t.dataWritable || (t.utcEnabled && !t.utcWritable)
  }

  /** Whether a pass that reads the board writes its row to the data log, and to the
      UTC log: the UTC row is written only after the data row. */
  predicate DataLogged(t: Tick) { t.dataWritable }
  predicate UtcLogged(t: Tick) { t.dataWritable && t.utcEnabled && t.utcWritable }

  /** The outcome of a pass from its tick and the number of replies read before it. */
  function PassOf(replies: seq<seq<byte>>, render: string -> string): (Tick, nat) -> Outcome<Reading> {
    (t: Tick, k: nat) => Cycle(t.connected, replies, k, render, CsvFails(t))
  }

  lemma PassOfIs(replies: seq<seq<byte>>, render: string -> string, t: Tick, k: nat, o: Outcome<Reading>)
    requires o == Cycle(t.connected, replies, k, render, CsvFails(t))
    ensures o == PassOf(replies, render)(t, k)
  {
  }

  /** The row of each log for a pass that read the board. */
  function DataLine(t: Tick, r: Reading): Row { DataRow(t.stamp, r) }
  function UtcLine(t: Tick, r: Reading): Row { UtcRow(t.utcStamp, r) }

  /** A data log locked during the second of three passes that read the board gets the
      rows of the first and the third, and the second pass shows "Ошибка". */
  lemma LockedLogSkipsPass(t0: Tick, t1: Tick, t2: Tick, r0: Reading, r1: Reading, r2: Reading)
    requires t0.dataWritable && !t1.dataWritable && t2.dataWritable
    ensures var os := [Polled(r0, CsvFails(t0)), Polled(r1, CsvFails(t1)), Polled(r2, CsvFails(t2))];
      Rows([t0, t1, t2], os, DataLine, DataLogged) == [DataRow(t0.stamp, r0), DataRow(t2.stamp, r2)]
    ensures Display(Polled(r1, CsvFails(t1))) == "Ошибка"
  {
    var ts, os := [t0, t1, t2], [Polled(r0, CsvFails(t0)), Polled(r1, CsvFails(t1)), Polled(r2, CsvFails(t2))];
    assert ts[..2] == [t0, t1] && os[..2] == [Polled(r0, CsvFails(t0)), Polled(r1, CsvFails(t1))];
    assert ts[..2][..1] == [t0] && os[..2][..1] == [Polled(r0, CsvFails(t0))];
    assert [t0][..0] == [] && [Polled(r0, CsvFails(t0))][..0] == [];
    assert Rows([t0], [Polled(r0, CsvFails(t0))], DataLine, DataLogged) == [DataRow(t0.stamp, r0)];
    assert Rows(ts[..2], os[..2], DataLine, DataLogged) == [DataRow(t0.stamp, r0)];
  }

  /** The worker of one device panel: the six labels of the panel, the colour of the
      temperature (orange when `alert`), the intervals slept and the two logs. */
  class Monitor {
    var panel: View
    var alert: bool
    var sleeps: nat
    var data: File
    var utc: File

    /** The panel as the window builds it, from the last row of the device's log. */
    constructor(data: File, utc: File)
      ensures panel == Startup(LastData(data))
      ensures this.data == data && this.utc == utc && !alert && sleeps == 0
    {
      panel := Startup(LastData(data));
      alert := false;
      sleeps := 0;
      this.data := data;
      this.utc := utc;
    }

    /** One pass of `device_monitoring`'s loop. */
    method Poll(link: Link, tick: Tick, render: string -> string) returns (o: Outcome<Reading>)
      modifies this, link
      ensures o == Cycle(tick.connected, link.replies, old(link.read), render, CsvFails(tick))
      ensures link.sent == old(link.sent) + Script(o, Probe, Fetch)
      ensures link.read == old(link.read) + |Script(o, Probe, Fetch)|
      ensures link.closes == old(link.closes) + Closes(o)
      ensures sleeps == old(sleeps) + Naps(o)
      ensures o.Polled? ==>
        panel == View(Display(o), o.reading.uptime, o.reading.voltage, o.reading.current, o.reading.leak, o.reading.temperature)
      ensures !o.Polled? ==> panel == old(panel).(status := Display(o))
      ensures o.Polled? ==> alert == Hot(o.reading.temperature)
      ensures o.Unreachable? ==> !alert
      ensures o.NoBoard? ==> alert == old(alert)
      ensures data == if o.Polled? && tick.dataWritable then Append(old(data), Header, DataRow(tick.stamp, o.reading)) else old(data)
      ensures utc == if o.Polled? && tick.dataWritable && tick.utcEnabled && tick.utcWritable
        then Append(old(utc), Header, UtcRow(tick.utcStamp, o.reading)) else old(utc)
    {
      if !tick.connected {
        panel := panel.(status := "Нет связи");
        alert := false;
        sleeps := sleeps + 1;
        return Unreachable;
      }
      ghost var start, sent0 := link.read, link.sent;
      var temp, found := Survey(link, render);
      if !found {
        Miss(link);
        o := NoBoard;
      } else {
        o := Complete(link, temp, tick, start, sent0);
        assert Script(o, Probe, Fetch) == Probe + Fetch;
      }
    }

    /** The end of a pass that finds no board: the status says so, and the session is
        closed and an interval slept twice, since `continue` leaves the `try` and the
        `finally` block runs as well. */
    method Miss(link: Link)
      modifies this, link
      ensures panel == old(panel).(status := Display(NoBoard))
      ensures sleeps == old(sleeps) + Naps<Reading>(NoBoard)
      ensures link.closes == old(link.closes) + Closes<Reading>(NoBoard)
      ensures link.read == old(link.read) && link.sent == old(link.sent)
      ensures alert == old(alert) && data == old(data) && utc == old(utc)
    {
      panel := panel.(status := "Нет RPSU");
      link.Close();
      sleeps := sleeps + 1;
      link.Close();
      sleeps := sleeps + 1;
    }

    /** Steps 4 to 7 of a pass whose board list mentions board 04, then the `finally`
        block: read the board, show and log the reading, close and sleep. */
    method Complete(link: Link, temperature: string, tick: Tick, ghost start: nat, ghost sent0: seq<Sent>)
      returns (o: Outcome<Reading>)
      requires link.read == start + |Probe| && link.sent == sent0 + Probe
      modifies this, link
      ensures o == Polled(Read(Answer(link.replies, start + 6), temperature), CsvFails(tick))
      ensures link.read == start + |Probe + Fetch| && link.sent == sent0 + (Probe + Fetch)
      ensures link.closes == old(link.closes) + Closes(o)
      ensures sleeps == old(sleeps) + Naps(o)
      ensures panel == View(Display(o), o.reading.uptime, o.reading.voltage, o.reading.current, o.reading.leak, o.reading.temperature)
      ensures alert == Hot(o.reading.temperature)
      ensures data == if tick.dataWritable then Append(old(data), Header, DataRow(tick.stamp, o.reading)) else old(data)
      ensures utc == if tick.dataWritable && tick.utcEnabled && tick.utcWritable
        then Append(old(utc), Header, UtcRow(tick.utcStamp, o.reading)) else old(utc)
    {
      var r := ReadBoard(link, temperature, start, sent0);
      o := Conclude(link, r, tick);
    }

    /** Shows and logs the reading, then runs the `finally` block. */
    method Conclude(link: Link, r: Reading, tick: Tick) returns (o: Outcome<Reading>)
      modifies this, link
      ensures o == Polled(r, CsvFails(tick))
      ensures link.read == old(link.read) && link.sent == old(link.sent)
      ensures link.closes == old(link.closes) + Closes(o)
      ensures sleeps == old(sleeps) + Naps(o)
      ensures panel == View(Display(o), r.uptime, r.voltage, r.current, r.leak, r.temperature)
      ensures alert == Hot(r.temperature)
      ensures data == if tick.dataWritable then Append(old(data), Header, DataRow(tick.stamp, r)) else old(data)
      ensures utc == if tick.dataWritable && tick.utcEnabled && tick.utcWritable
        then Append(old(utc), Header, UtcRow(tick.utcStamp, r)) else old(utc)
    {
      var failed := Publish(r, tick);
      o := Polled(r, failed);
      Finish(link);
    }

    /** The `finally` block: close the session and sleep one interval. */
    method Finish(link: Link)
      modifies this, link
      ensures link.closes == old(link.closes) + 1 && sleeps == old(sleeps) + 1
      ensures link.read == old(link.read) && link.sent == old(link.sent)
      ensures panel == old(panel) && alert == old(alert) && data == old(data) && utc == old(utc)
    {
      link.Close();
      sleeps := sleeps + 1;
    }

    /** Shows a reading on the panel and logs it; `failed` tells whether a log write
        raised, in which case the status shows "Ошибка" and nothing later is written. */
    method Publish(r: Reading, tick: Tick) returns (failed: bool)
      modifies this
      ensures failed == CsvFails(tick)
      ensures panel == View(Display(Polled(r, failed)), r.uptime, r.voltage, r.current, r.leak, r.temperature)
      ensures alert == Hot(r.temperature)
      ensures sleeps == old(sleeps)
      ensures data == if tick.dataWritable then Append(old(data), Header, DataRow(tick.stamp, r)) else old(data)
      ensures utc == if tick.dataWritable && tick.utcEnabled && tick.utcWritable
        then Append(old(utc), Header, UtcRow(tick.utcStamp, r)) else old(utc)
    {
      panel := View(if r.status == "OFF" then "Авария" else r.status, r.uptime, r.voltage, r.current, r.leak, r.temperature);
      alert := Hot(r.temperature);
      // The two files as the writes leave them; the first write that raises ends them.
      var d, u := data, utc;
      failed := false;
      if tick.dataWritable {
        d := Append(d, Header, DataRow(tick.stamp, r));
        if tick.utcEnabled {
          if tick.utcWritable {
            u := Append(u, Header, UtcRow(tick.utcStamp, r));
          } else {
            failed := true;
          }
        }
      } else {
        failed := true;
      }
      data, utc := d, u;
      if failed {
        panel := panel.(status := "Ошибка");
      }
    }

    /** One pass of `run`'s loop, with what the passes before it have done so far: the
        new pass continues the run's outcomes, commands, closes, naps and log rows. */
    method Advance(link: Link, ticks: seq<Tick>, os: seq<Outcome<Reading>>, render: string -> string, 
                   ghost start: nat, ghost sent0: seq<Sent>, ghost closes0: nat, ghost sleeps0: nat,
                   ghost data0: File, ghost utc0: File) returns (o: Outcome<Reading>)
      modifies this, link
      requires |os| < |ticks|
      requires os == Passes(ticks[..|os|], PassOf(link.replies, render), start, Probe, Fetch)
      requires link.read == start + |Scripts(os, Probe, Fetch)|
      requires link.sent == sent0 + Scripts(os, Probe, Fetch)
      requires link.closes == closes0 + TotalCloses(os)
      requires sleeps == sleeps0 + TotalNaps(os)
      requires data == AppendAll(data0, Header, Rows(ticks[..|os|], os, DataLine, DataLogged))
      requires utc == AppendAll(utc0, Header, Rows(ticks[..|os|], os, UtcLine, UtcLogged))
      ensures os + [o] == Passes(ticks[..|os| + 1], PassOf(link.replies, render), start, Probe, Fetch)
      ensures link.read == start + |Scripts(os + [o], Probe, Fetch)|
      ensures link.sent == sent0 + Scripts(os + [o], Probe, Fetch)
      ensures link.closes == closes0 + TotalCloses(os + [o])
      ensures sleeps == sleeps0 + TotalNaps(os + [o])
      ensures data == AppendAll(data0, Header, Rows(ticks[..|os| + 1], os + [o], DataLine, DataLogged))
      ensures utc == AppendAll(utc0, Header, Rows(ticks[..|os| + 1], os + [o], UtcLine, UtcLogged))
    {
      ghost var k, d, u := link.read, data, utc;
      o := Poll(link, ticks[|os|], render);
      PassOfIs(link.replies, render, ticks[|os|], k, o);
      PassesStep(ticks, |os|, os, o, PassOf(link.replies, render), start, Probe, Fetch, k);
      LogStep(data0, d, Header, ticks, os, o, DataLine, DataLogged);
      LogStep(utc0, u, Header, ticks, os, o, UtcLine, UtcLogged);
      Extend(sent0, os, o, Probe, Fetch);
    }

    /** The worker's endless loop, run for as many passes as `ticks` describes: the
        outcomes are those of the passes in turn, each reading the replies where the one
        before stopped; the commands, closes and sleeps add up pass by pass; and each
        log holds what it held before followed by the
        rows of the passes that read the board and could write it. */
    method Loop(link: Link, ticks: seq<Tick>, render: string -> string) returns (os: seq<Outcome<Reading>>)
      modifies this, link
      ensures os == Passes(ticks, PassOf(link.replies, render), old(link.read), Probe, Fetch)
      ensures link.read == old(link.read) + |Scripts(os, Probe, Fetch)|
      ensures link.sent == old(link.sent) + Scripts(os, Probe, Fetch)
      ensures link.closes == old(link.closes) + TotalCloses(os)
      ensures sleeps == old(sleeps) + TotalNaps(os)
      ensures data == AppendAll(old(data), Header, Rows(ticks, os, DataLine, DataLogged))
      ensures utc == AppendAll(old(utc), Header, Rows(ticks, os, UtcLine, UtcLogged))
    {
      os := [];
      var i := 0;
      ghost var pass := PassOf(link.replies, render);
      while i < |ticks|
        invariant i == |os| <= |ticks|
        invariant os == Passes(ticks[..i], pass, old(link.read), Probe, Fetch)
        invariant link.read == old(link.read) + |Scripts(os, Probe, Fetch)|
        invariant link.sent == old(link.sent) + Scripts(os, Probe, Fetch)
        invariant link.closes == old(link.closes) + TotalCloses(os)
        invariant sleeps == old(sleeps) + TotalNaps(os)
        invariant data == AppendAll(old(data), Header, Rows(ticks[..i], os, DataLine, DataLogged))
        invariant utc == AppendAll(old(utc), Header, Rows(ticks[..i], os, UtcLine, UtcLogged))
      {
        var o := Advance(link, ticks, os, render, old(link.read), old(link.sent), old(link.closes), old(sleeps), old(data), old(utc));
        os := os + [o];
        i := i + 1;
      }
      assert ticks[..i] == ticks;
    }

    /** The loop as a whole: what `Loop` states, every pass sleeping at least once, and
        each log's header written once, at the start of a new log. */
    method Run(link: Link, ticks: seq<Tick>, render: string -> string) returns (os: seq<Outcome<Reading>>)
      modifies this, link
      ensures os == Passes(ticks, PassOf(link.replies, render), old(link.read), Probe, Fetch)
      ensures link.read == old(link.read) + |Scripts(os, Probe, Fetch)|
      ensures link.sent == old(link.sent) + Scripts(os, Probe, Fetch)
      ensures link.closes == old(link.closes) + TotalCloses(os)
      ensures sleeps == old(sleeps) + TotalNaps(os)
      ensures old(sleeps) + |ticks| <= sleeps
      ensures data == AppendAll(old(data), Header, Rows(ticks, os, DataLine, DataLogged))
      ensures utc == AppendAll(old(utc), Header, Rows(ticks, os, UtcLine, UtcLogged))
      ensures old(data).Absent? && Rows(ticks, os, DataLine, DataLogged) != [] ==>
        data == Present([Header] + Rows(ticks, os, DataLine, DataLogged))
      ensures old(data).Present? ==> data == Present(old(data).rows + Rows(ticks, os, DataLine, DataLogged))
      ensures old(utc).Absent? && Rows(ticks, os, UtcLine, UtcLogged) != [] ==>
        utc == Present([Header] + Rows(ticks, os, UtcLine, UtcLogged))
      ensures old(utc).Present? ==> utc == Present(old(utc).rows + Rows(ticks, os, UtcLine, UtcLogged))
    {
      os := Loop(link, ticks, render);
      TotalNapsCount(os);
      AppendAllShape(old(data), Header, Rows(ticks, os, DataLine, DataLogged));
      AppendAllShape(old(utc), Header, Rows(ticks, os, UtcLine, UtcLogged));
    }
  }

  // ---------------------------------------------------------------------------
  // The device list

  /** `add_device`: the entries are stripped, then the list is asked to take the device
      with a cap of five; the message says why it was refused or which device was added. */
  method AddDevice(list: DeviceList, ipEntry: string, nameEntry: string) returns (message: string)
    modifies list
    ensures var ip, name := Strip(ipEntry), Strip(nameEntry);
      && (message == "Максимум 5 устройств!" <==> |old(list.devices)| >= MaxDevices)
      && (message == "IP и имя обязательны!" <==> |old(list.devices)| < MaxDevices && (ip == "" || name == ""))
      && (list.devices != old(list.devices) <==> message == "Добавлено: " + name)
      && (list.devices != old(list.devices) ==> list.devices == old(list.devices) + [Device(ip, name, TelnetPort)])
      && (|old(list.devices)| < MaxDevices && ip != "" && name != "" ==>
            message == "Добавлено: " + name && list.devices == old(list.devices) + [Device(ip, name, TelnetPort)])
  {
    var ip := Strip(ipEntry);
    var name := Strip(nameEntry);
    var a := list.Add(ip, name, MaxDevices);
    var added := "Добавлено: " + name;
    match a
    case Full =>
      message := "Максимум 5 устройств!";
      assert message[0] != added[0];
    case Blank =>
      message := "IP и имя обязательны!";
      assert message[0] != added[0];
    case Added =>
      message := added;
      assert |list.devices| == |old(list.devices)| + 1;
      assert added[0] != "Максимум 5 устройств!"[0] && added[0] != "IP и имя обязательны!"[0];
  }
}
