# RPSU monitor: polling core

The repository has two versions of a desktop monitor for RPSU boards behind a modem.
`RPSU.py` is the current one: up to five devices, a temperature reading and an alert.
`RPSU01.py` is the earlier one: up to three devices and no temperature.

For each configured device, a worker thread loops forever:

- It opens a telnet session.
- It walks the modem menu with fixed commands: "2", then "STATUS" (current version only), "%1" and "ECHO".
- It checks that the board list mentions board "04".
- It selects the board ("%104", "1") and asks for "SHOW".
- It sanitises the reply and extracts status, uptime, voltage, current and leak current with regular expressions.
- It shows them on the device's panel and appends them to a CSV log. A second log with a shifted timestamp is written when the UTC option is on.
- It closes the session and sleeps one polling interval.

When the window is built, each panel starts from the last row of the device's log. A small device list holds the configured devices, with add, delete and edit operations.

The model has these modules:

- `Text`: Python's `str.isspace`, `str.strip` and `in` on strings, and ASCII case folding.
- `Sanitize`: the two substitutions of `clean_response`, parameterised by the set of characters the second one keeps.
- `Pattern`: the regular expressions of the extractors.
  - Each has the shape "key, optional white space, `:` or `=`, white space, capture".
  - A scanner (`At`, `Find`, `Search`) evaluates them.
  - A declarative semantics (`Matches`, `FirstAt`, `Leftmost`) states what `re.search` returns.
  - The two are proved to agree for every pattern whose capture is deterministic, which all of the extractors' are.
- `Transport`: the telnet session as a class `Link`.
  - The replies are a given sequence of byte strings, read one per command.
  - The commands written are logged with their delays, and closes are counted.
- `CsvLog`: a log file as the rows `csv.reader` gives back, either absent or present. A header is written only when the file did not exist.
- `Registry`: the device list as a class `DeviceList` with `Add`, `Delete` and `Edit`.
- `Polling`: the three ways a pass can end, and the commands, closes and sleeps each costs. A run of passes is a function of the ticks and the replies, and so are the rows it logs.
- `Rpsu` and `Rpsu01`: each version's decoding, cleaning, extractors, rows, startup view, one pass of the loop as `Monitor.Poll`, the loop as `Monitor.Run`, and `AddDevice`. Each pass reads its own `Tick`: whether the connection opens, the two timestamps, whether the UTC option is on, and whether each log can be written on that pass.

## Model

| member | source | states |
|---|---|---|
| Text.Strip | RPSU.py:61 | `strip()` leaves no white space at either end and keeps only characters of its input |
| Text.StripMeans | RPSU.py:61 | what `strip()` keeps is a contiguous part of the input with only white space cut off before and after it |
| Text.StripTrimmed | RPSU01.py:63 | stripping text with no white space at its ends changes nothing |
| Text.ContainsMeans | RPSU.py:185 | `"04" in text` holds exactly when "04" occurs at some position of the text |
| Text.UpperWord | RPSU.py:77 | `.upper()` of a word that matched "ON" or "OFF" in any mix of cases is "ON" or "OFF" |
| Text.TrimLeftSuffix | RPSU.py:61 | the left trim of `strip()` keeps a suffix of its input |
| Text.TrimRightPrefix | RPSU.py:61 | the right trim of `strip()` keeps a prefix of its input |
| Sanitize.CsiLength | RPSU.py:58 | the length of the escape sequence the pattern matches at the start of the text, which is the only prefix that is one, or 0 when none starts there |
| Sanitize.RemoveCsi | RPSU.py:58 | the control-sequence substitution only deletes, so its result is never longer than its input; what it deletes is stated by the lemmas below |
| Sanitize.CsiDeleted | RPSU.py:58 | an escape sequence at the start is deleted whole, and the scan resumes after it |
| Sanitize.RemoveCsiSkips | RPSU.py:58 | text up to the first ESC is kept, the escape sequence that starts there is deleted, and the rest is scanned on |
| Sanitize.RemoveCsiPlainFirst | RPSU.py:58 | a first character other than ESC is kept |
| Sanitize.RemoveCsiKeeps | RPSU.py:58 | where no escape sequence starts, the character is kept, a lone ESC included |
| Sanitize.RemoveCsiWithoutEsc | RPSU.py:58 | text without an ESC character passes the control-sequence substitution unchanged |
| Sanitize.KeepOnly | RPSU01.py:62 | the second substitution keeps only characters of the allowed set, and text made only of allowed characters passes unchanged |
| Sanitize.KeepOnlyAppend | RPSU.py:60 | the second substitution deletes from each piece of a text what it deletes from the whole |
| Sanitize.KeepOnlyOne | RPSU.py:60 | a single character survives exactly when it is in the allowed set |
| Sanitize.Clean | RPSU.py:56-61 | a cleaned reply holds only allowed characters, no ESC, and no white space at its ends |
| Sanitize.CleanIdempotent | RPSU.py:56-61 | cleaning a cleaned reply changes nothing |
| Sanitize.ColourCodes | RPSU.py:58 | the colour codes ESC `[31m` and ESC `[0m` are matches of the escape pattern |
| Sanitize.Enclosed | RPSU.py:58 | escape sequences around a text without ESC are deleted and the text is kept |
| Sanitize.ColourCodesRemoved | RPSU.py:56-61 | a trimmed reading of allowed characters, coloured red and reset, cleans back to the reading with either set |
| Sanitize.ColouredVoltage | RPSU.py:56-61 | ESC `[31mVoltage: 12` ESC `[0m` cleans to "Voltage: 12" with either set |
| Sanitize.LineBreaksKept | RPSU.py:60 | with the set of the current version, CR and LF inside a reply survive cleaning |
| Sanitize.KeepOnlyDropsLineBreaks | RPSU01.py:62 | with the set of the earlier version, the substitution deletes CR and LF |
| Sanitize.LineBreaksDropped | RPSU01.py:60-63 | with the set of the earlier version, the two lines of a reply run together after cleaning |
| Pattern.RunEndIs | RPSU.py:66 | a character class run ends at the first character outside the class |
| Pattern.CaptureAtMeans | RPSU.py:66 | the scanner's capture at a position is exactly the capture the regular expression's group takes there (greedy run, run then literal, run then unit, ON or OFF) |
| Pattern.CaptureStartsSolid | RPSU.py:66 | a capture never starts with white space, so `\s*` before it is maximal |
| Pattern.AtSound | RPSU.py:66 | a capture the scanner finds at a position is a match of the regular expression there |
| Pattern.AtComplete | RPSU.py:66 | every match of the regular expression at a position is found by the scanner |
| Pattern.AtMeans | RPSU.py:66 | the scanner finds a capture at a position exactly when the regular expression matches there with that capture |
| Pattern.MatchDeterministic | RPSU.py:66 | at a given position the regular expression has at most one capture |
| Pattern.LeftmostChoice | RPSU.py:66 | `Leftmost` picks a match at the leftmost position where one exists, and none when there is none |
| Pattern.SearchIsLeftmost | RPSU.py:66-67 | `re.search(...).group(1)` is the capture of the leftmost match, and nothing when the pattern matches nowhere |
| Pattern.Find | RPSU.py:66 | the search position is the first position from which the pattern matches |
| Pattern.Search | RPSU.py:66 | a found capture has the shape of its group (non-empty run of the class, "ON" or "OFF") |
| CsvLog.Append | RPSU.py:96-105 | a row is appended at the end; a file that did not exist is created with the header first, one that exists gets no header |
| CsvLog.AppendAllPresent | RPSU.py:101-105 | appending to an existing file only adds the rows, in order |
| CsvLog.AppendAllSnoc | RPSU.py:96-105 | appending rows and then one more is appending them all |
| CsvLog.AppendAllShape | RPSU.py:96-105 | after appending rows, a log that did not exist holds the header and the rows, and one that existed holds its old rows and the new ones |
| CsvLog.HeaderOnce | RPSU.py:99-104 | a log started from no file holds the header once, first, then every appended row in order |
| CsvLog.FieldOr | RPSU.py:136-141 | field `i` of a row, or "" when the row is shorter |
| Registry.Without | RPSU.py:313 | deleting by name keeps exactly the devices with another name |
| Registry.WithoutAppend | RPSU01.py:287 | deletion keeps the order of the remaining devices |
| Registry.WithoutAbsent | RPSU01.py:287 | deleting a name nobody has leaves the list as it is |
| Registry.FirstNamed | RPSU.py:320-321 | the index of the first device with the name, or the length of the list |
| Registry.Renamed | RPSU.py:320-324 | the first device with the name gets the new address and name and keeps its port; every other entry is unchanged |
| Registry.RenamedOnlyFirst | RPSU.py:324 | a later device with the same name keeps its name, because the loop stops at the first |
| Registry.DeviceList.Add | RPSU01.py:263-274 | refused when the list is full (checked first), then when the address or name is empty; otherwise exactly one device on port 23 is appended, and a list within the cap stays within it |
| Registry.DeviceList.Delete | RPSU.py:311-313 | the list becomes the list without the named devices |
| Registry.DeviceList.Edit | RPSU.py:318-324 | the loop's result is `Renamed`: only the first device with the name changes |
| Polling.TotalNapsCount | RPSU.py:155-246 | over several passes, the loop sleeps once per pass plus once more per pass without the board, so between one and two intervals per pass |
| Polling.Extend | RPSU.py:155 | one more pass adds its sleeps and closes to the totals and its commands to the end of the log |
| Polling.TotalClosesCount | RPSU.py:185-246 | over several passes, every session opened is closed once, and once more when its pass found no board; only a pass that opened a session can find no board |
| Polling.PassesStep | RPSU.py:155-246 | one more pass extends the outcomes of a run with its own, which reads the replies from where the run stopped |
| Polling.RowsStep | RPSU.py:233-236 | one more pass adds its row after the rows of the run, if it read the board and could write the log on that pass |
| Polling.LogStep | RPSU.py:233-236 | a log appended by each pass that reads the board and can write it holds after one more pass its old contents followed by the rows of the longer run |
| Polling.RowsCount | RPSU.py:185-236 | a run logs at most one row for each pass that opened a session and found the board, and exactly one for each when every pass could write the log |
| Transport.Link.Exchange | RPSU.py:45-50 | a command is written and logged with its delay, and the next reply is read |
| Transport.Link.Close | RPSU.py:243 | a close is counted |
| Rpsu.Decode | RPSU.py:49 | decoding with `errors='ignore'` gives ASCII characters only, and keeps an all-ASCII reply as it is |
| Rpsu.DecodeAppend | RPSU.py:49 | decoding works byte by byte: a reply decodes to the decoding of its pieces, joined |
| Rpsu.DecodeOne | RPSU.py:49 | a byte below 128 becomes its character and any other byte is dropped |
| Rpsu.DecodeSkipsNonAscii | RPSU.py:49 | the bytes 0x41, 0xC3, 0x42 decode to "AB" |
| Rpsu.CleanResponse | RPSU.py:56-61 | the cleaned reply holds printable ASCII, LF and CR only, and no white space at its ends |
| Rpsu.CleanResponseIdempotent | RPSU.py:56-61 | cleaning twice is cleaning once |
| Rpsu.CleanKeepsLineBreaks | RPSU.py:60 | "A\r\nB" stays "A\r\nB" |
| Rpsu.CleanRemovesColour | RPSU.py:56-61 | ESC `[31mVoltage: 12` ESC `[0m` cleans to "Voltage: 12" |
| Rpsu.ExtractValue | RPSU.py:65-67 | the value is "0" or a non-empty run of `-`, `.` and digits |
| Rpsu.ExtractValueIsLeftmost | RPSU.py:65-67 | the value is the capture of the leftmost case-insensitive match of `key\s*[:=]\s*([-\d.]+)`, "0" when there is none |
| Rpsu.ExtractUptime | RPSU.py:70-72 | the uptime is "0" or a non-empty run of digits |
| Rpsu.ExtractUptimeIsLeftmost | RPSU.py:70-72 | the uptime is the capture of the leftmost case-insensitive match of `RPSU Uptime[:=]\s*(\d+)`, "0" when there is none |
| Rpsu.ExtractStatus | RPSU.py:75-77 | the status is always "ON" or "OFF" |
| Rpsu.ExtractStatusIsLeftmost | RPSU.py:75-77 | the status is "ON" exactly when the leftmost case-insensitive match captures a two-letter word (some case of "on") |
| Rpsu.ExtractTemperature | RPSU.py:81-92 | no match gives "0.0" |
| Rpsu.IsFloatExamples | RPSU.py:86-91 | `float()` accepts "40.5", "12", "7." and ".5" and refuses ".", "1.2.3" and the empty run |
| Rpsu.ExtractTemperatureIsLeftmost | RPSU.py:81-92 | the temperature is the rendered run before the `C` unit of the leftmost match, "0.0" when there is none or when `float()` refuses the run |
| Rpsu.HotExamples | RPSU.py:214-224 | the alert is on for 40.1, 123.4 and inf, and off for 40.0 and 0.0 |
| Rpsu.Read | RPSU.py:198-202 | one successful pass reads status ON or OFF, four non-empty values, and the temperature taken before |
| Rpsu.DataRow | RPSU.py:104-105 | a data row has one field per header column, the timestamp first |
| Rpsu.UtcRow | RPSU.py:109-122 | the UTC row has status 1 exactly for "ON"; otherwise uptime, voltage, current and leak are "0"; the temperature is written as read |
| Rpsu.LastData | RPSU.py:126-146 | six "" for a missing file or one with at most one row; otherwise fields 1 to 6 of the last row, "" for each missing one |
| Rpsu.LastDataAfterAppend | RPSU.py:96-146 | reading back the log after a row is appended gives that row's values, unless the file existed and was empty |
| Rpsu.EmptyLogHidesFirstRow | RPSU.py:99-134 | a log that exists but is empty gets no header, and its first data row is taken for the header and never shown |
| Rpsu.Startup | RPSU.py:383-389 | the initial panel shows "Авария" for OFF and "Нет данных" for a missing status, "—" for a missing value and "0.0" for a missing temperature |
| Rpsu.Cycle | RPSU.py:155-246 | a pass is unreachable exactly without a connection, and a pass that reads the board fails exactly when one of its log writes fails |
| Rpsu.CycleKind | RPSU.py:156-189 | a pass is unreachable exactly without a connection, misses the board exactly when the cleaned ECHO reply lacks "04", and reads the board otherwise |
| Rpsu.ScriptShape | RPSU.py:171-194 | a connected pass starts with "2", "STATUS", "%1", "ECHO"; "SHOW" is sent exactly when the board was found; a missing board sleeps twice and closes twice |
| Rpsu.Display | RPSU.py:155-240 | the panel shows "Нет связи", "Нет RPSU", "Ошибка", "Авария" or the status a pass read |
| Rpsu.DisplayMeaning | RPSU.py:155-240 | for a status of ON or OFF, the panel shows "Нет связи" exactly when the connection failed, "Нет RPSU" exactly when the board was missing, "Ошибка" exactly when a log write failed, "Авария" exactly for a clean pass reading OFF and "ON" exactly for a clean pass reading ON |
| Rpsu.LockedLogSkipsPass | RPSU.py:233-240 | a data log that cannot be written on the second of three passes gets the rows of the first and the third, and the second pass shows "Ошибка" |
| Rpsu.RestartShowsLastPoll | RPSU.py:383-389 | after a logged pass, rebuilding the window shows what the pass showed |
| Rpsu.SendCommand | RPSU.py:45-53 | the reply to one command is the next reply, decoded |
| Rpsu.ProbeLogged | RPSU.py:173-182 | the four navigation commands, one by one, make the probe part of the log |
| Rpsu.FetchLogged | RPSU.py:192-194 | the three board commands, one by one, make the fetch part of the log |
| Rpsu.Survey | RPSU.py:173-185 | the navigation writes "2", "STATUS", "%1", "ECHO" with delay 1, and the board is found exactly when the cleaned ECHO reply contains "04" |
| Rpsu.ReadBoard | RPSU.py:192-202 | the board commands "%104", "1", "SHOW" (delay 2) are written, and the reading comes from the cleaned SHOW reply |
| Rpsu.Monitor.constructor | RPSU.py:383-389 | a new panel starts from the startup view of the device's log |
| Rpsu.Monitor.Poll | RPSU.py:155-246 | one pass's outcome follows from the connection and the replies; it fixes the commands written, the closes, the sleeps, the panel, the alert colour and both logs |
| Rpsu.Monitor.Miss | RPSU.py:185-189 | without the board, the status shows "Нет RPSU", and the session is closed and an interval slept twice |
| Rpsu.Monitor.Complete | RPSU.py:191-246 | a pass that finds the board reads it, shows and logs the reading, closes once and sleeps once |
| Rpsu.Monitor.Conclude | RPSU.py:204-246 | the reading is shown and logged, then the session is closed and one interval slept |
| Rpsu.Monitor.Finish | RPSU.py:241-246 | the `finally` block closes the session and sleeps one interval |
| Rpsu.Monitor.Publish | RPSU.py:204-240 | the panel shows the reading ("Авария" for OFF), the alert follows the temperature, and the data log is appended, then the UTC log when the option is on for that pass; a failed write shows "Ошибка" and stops later writes |
| Rpsu.Monitor.Advance | RPSU.py:155-246 | one more pass extends the run's outcomes, commands, reads, closes, sleeps and log rows |
| Rpsu.Monitor.Loop | RPSU.py:155-246 | over any number of passes, the outcomes are those of the passes in turn, each reading the replies where the one before stopped; commands, reads, closes and sleeps add up pass by pass; each log holds its old rows followed by one row per pass that read the board and could write that log on that pass |
| Rpsu.Monitor.Run | RPSU.py:155-246 | over any number of passes, the outcomes are those of the passes in turn, each reading the replies where the one before stopped; commands, reads, closes and sleeps add up pass by pass, so every pass sleeps at least once; each log holds its old rows followed by one row per pass that read the board and could write that log on that pass (the data log when it was writable; the UTC log when the UTC option was on and both logs were writable), with the header once at the start of a new log |
| Rpsu.AddDevice | RPSU.py:293-305 | entries are stripped; "Максимум 5 устройств!" exactly when the list is full, "IP и имя обязательны!" exactly when an entry is blank, otherwise exactly that device, on port 23, is appended and the message names it |
| Rpsu01.DecodeStrict | RPSU01.py:48-56 | strict ASCII decoding keeps an all-ASCII reply as it is, and any other byte makes `send_command` answer "" |
| Rpsu01.CleanResponse | RPSU01.py:60-63 | the cleaned reply holds printable ASCII only and no white space at its ends |
| Rpsu01.CleanResponseIdempotent | RPSU01.py:60-63 | cleaning twice is cleaning once |
| Rpsu01.CleanDropsLineBreaks | RPSU01.py:62 | "A\r\nB" becomes "AB" |
| Rpsu01.CleanRemovesColour | RPSU01.py:60-63 | ESC `[31mVoltage: 12` ESC `[0m` cleans to "Voltage: 12" |
| Rpsu01.ExtractValue | RPSU01.py:67-69 | the value is "0" or a non-empty run of `-`, `.` and digits |
| Rpsu01.ExtractValueIsLeftmost | RPSU01.py:67-69 | the value is the capture of the leftmost case-sensitive match of `key[:=]\s*([-\d.]+)`, "0" when there is none |
| Rpsu01.ExtractUptime | RPSU01.py:72-74 | the uptime is "0" or a non-empty run of digits |
| Rpsu01.ExtractUptimeIsLeftmost | RPSU01.py:72-74 | the uptime is the digits of the leftmost case-sensitive match of `RPSU Uptime[:=]\s*(\d+) Hours`, "0" when there is none |
| Rpsu01.ExtractStatus | RPSU01.py:77-79 | the status is always "ON" or "OFF" |
| Rpsu01.ExtractStatusIsLeftmost | RPSU01.py:77-79 | the status is "ON" exactly when the leftmost case-insensitive match captures a two-letter word |
| Rpsu01.KeysAreCaseSensitive | RPSU01.py:68 | "voltage: 5" gives no voltage, since the key is matched in its own case |
| Rpsu01.UptimeNeedsUnit | RPSU01.py:73 | "RPSU Uptime: 12" gives no uptime without " Hours" after it |
| Rpsu01.UptimeWithUnit | RPSU01.py:73 | "RPSU Uptime: 12 Hours" gives "12" |
| Rpsu01.Read | RPSU01.py:174-178 | one successful pass reads status ON or OFF and four non-empty values |
| Rpsu01.DataRow | RPSU01.py:92-94 | a data row has one field per header column, the timestamp first |
| Rpsu01.UtcRow | RPSU01.py:100-121 | the UTC row has status 1 exactly for "ON"; otherwise every value is "0" |
| Rpsu01.LastData | RPSU01.py:127-142 | five "" for a missing file, one with at most one row, or a last row too short (the index error is caught); otherwise fields 1 to 5 of the last row |
| Rpsu01.LastDataAfterAppend | RPSU01.py:83-142 | reading back the log after a row is appended gives that row's values, unless the file existed and was empty |
| Rpsu01.EmptyLogHidesFirstRow | RPSU01.py:88-134 | a log that exists but is empty gets no header, and its first data row is never shown |
| Rpsu01.Startup | RPSU01.py:349-359 | the initial panel shows "Авария" for OFF and "Нет связи" for a missing status; the values are shown as logged |
| Rpsu01.Cycle | RPSU01.py:148-202 | a pass is unreachable exactly without a connection, and a pass that reads the board fails exactly when one of its log writes fails |
| Rpsu01.CycleKind | RPSU01.py:149-166 | a pass is unreachable exactly without a connection, misses the board exactly when the cleaned ECHO reply lacks "04", and reads the board otherwise |
| Rpsu01.ScriptShape | RPSU01.py:157-170 | a connected pass starts with "2", "%1", "ECHO"; "SHOW" is sent exactly when the board was found; a missing board sleeps twice and closes twice |
| Rpsu01.Display | RPSU01.py:151-199 | the panel shows "Нет связи", "Авария" or the status a pass read |
| Rpsu01.DisplayMeaning | RPSU01.py:151-199 | the panel shows "Нет связи" exactly when a pass did not complete cleanly, and "Авария" exactly for a clean pass reading OFF |
| Rpsu01.RestartShowsLastPoll | RPSU01.py:349-359 | after a logged pass, rebuilding the window shows what the pass showed |
| Rpsu01.SendCommand | RPSU01.py:48-56 | the reply to one command is the next reply, strictly decoded |
| Rpsu01.ProbeLogged | RPSU01.py:157-159 | the three navigation commands, one by one, make the probe part of the log |
| Rpsu01.FetchLogged | RPSU01.py:168-170 | the three board commands, one by one, make the fetch part of the log |
| Rpsu01.Survey | RPSU01.py:157-162 | the navigation writes "2", "%1", "ECHO" with delay 2, and the board is found exactly when the cleaned ECHO reply contains "04" |
| Rpsu01.ReadBoard | RPSU01.py:168-178 | "%104" and "1" (delay 2) and "SHOW" (delay 3) are written, and the reading comes from the cleaned SHOW reply |
| Rpsu01.Monitor.constructor | RPSU01.py:349-359 | a new panel starts from the startup view of the device's log |
| Rpsu01.Monitor.Poll | RPSU01.py:148-202 | one pass's outcome follows from the connection and the replies; it fixes the commands written, the closes, the sleeps, the panel and both logs |
| Rpsu01.Monitor.Miss | RPSU01.py:162-166 | without the board, the status shows "Нет связи", and the session is closed and an interval slept twice |
| Rpsu01.Monitor.Complete | RPSU01.py:168-202 | a pass that finds the board reads it, shows and logs the reading, closes once and sleeps once |
| Rpsu01.Monitor.Conclude | RPSU01.py:180-202 | the reading is shown and logged, then the session is closed and one interval slept |
| Rpsu01.Monitor.Finish | RPSU01.py:200-202 | the `finally` block closes the session and sleeps one interval |
| Rpsu01.Monitor.Publish | RPSU01.py:180-199 | the panel shows the reading ("Авария" for OFF), and the data log is appended, then the UTC log when the option is on for that pass; a failed write shows "Нет связи" and stops later writes |
| Rpsu01.Monitor.Advance | RPSU01.py:148-202 | one more pass extends the run's outcomes, commands, reads, closes, sleeps and log rows |
| Rpsu01.Monitor.Run | RPSU01.py:148-202 | over any number of passes, the outcomes are those of the passes in turn, each reading the replies where the one before stopped; commands, reads, closes and sleeps add up pass by pass, so every pass sleeps at least once; each log holds its old rows followed by one row per pass that read the board and could write that log on that pass (the data log when it was writable; the UTC log when the UTC option was on and both logs were writable), with the header once at the start of a new log |
| Rpsu01.AddDevice | RPSU01.py:261-276 | the full-list message exactly when the list holds three or more devices, the empty-field message exactly when an entry is empty, otherwise exactly that device, as typed and on port 23, is appended and the message names it |

## Where the code's behaviour is surprising

The model follows the code in each case below.

- A pass that finds no board closes the session and sleeps one interval, then `continue`s. `continue` leaves the `try` block, so the `finally` block closes the session and sleeps again. Such a pass therefore sleeps two intervals and closes twice, so passes do not all wait the same time. This is `Polling.Naps`, `Polling.Closes` and `Monitor.Miss` in both versions.
- The earlier version's `clean_response` keeps printable ASCII only, so CR and LF go too and the lines of a reply run together (`Rpsu01.CleanDropsLineBreaks`).
- The earlier version's value and uptime patterns are case sensitive. Its uptime pattern also requires " Hours" after the digits (`Rpsu01.KeysAreCaseSensitive`, `Rpsu01.UptimeNeedsUnit`).
- The earlier version shows "Нет связи" both for a missing board and for an exception, not separate indicators.
- The earlier version decodes replies strictly. A reply with a non-ASCII byte makes `send_command` return "" (`Rpsu01.DecodeStrict`).
- "Current" also occurs inside "Leak Current". `extract_value(..., "Current")` takes whichever comes first in the reply. The model keeps this leftmost-match behaviour (`Rpsu.ExtractValueIsLeftmost`).

## Left out

- The tkinter window, tray icon, debug log window and interval settings are not modelled. Panel labels are the `panel` field, and the temperature label's colour is the `alert` field.
- Threads and the process-wide polling interval are left out. A sleep is counted in `sleeps`, one interval each.
- Telnet timing is left out: the delays are only logged with each command. Whether the connection opens is a parameter of each pass (`Tick.connected`), and the replies are a given sequence.
- Clocks are left out. The local and the shifted UTC timestamps are parameters of each pass (`Tick`).
- Saving and loading the device list as JSON is left out. `update_main_window` is left out too.
- Rpsu.ExtractTemperature: `float()` and the `:.1f` formatting are a parameter `render`. Floating point is not modelled. The alert `Hot` is stated over what `:.1f` writes for finite values, and over "inf".
- `\d` and `IGNORECASE` are modelled on ASCII only. Non-ASCII digits and case equivalents cannot occur in the cleaned replies.
- Exceptions: only a failing CSV write is modelled (`Tick.dataWritable`, `Tick.utcWritable`, given per pass because each pass reopens the logs). Other exceptions inside the `try` come from the GUI, the clock or the operating system and are left out. So is the exception handler around `get_last_data_from_csv`'s file reading in the current version.
- CSV quoting and the `;` delimiter are not modelled: a row is written and read back as the same fields.
- Rpsu.Monitor.Run, Rpsu01.Monitor.Run: the panel and the alert after a run are not stated; `Monitor.Poll` states them for each pass.
- Registry.DeviceList.Edit: edits the list value, not a dictionary shared with a running worker, so aliasing between the list and the workers is not modelled.
- `open_edit_window` is not part of this model. It only strips and checks its two entries before calling `edit_device`.
- `connect_to_device` is not part of this model beyond its outcome, which is the `connected` parameter.
