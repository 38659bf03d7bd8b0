# Allo Boss2 OLED front panel: a Dafny model

The Allo Boss2 is a DAC board for the Raspberry Pi. It has a small SH1106
OLED panel, five push buttons and an infra-red receiver. A Python daemon
drives them. It has three parts:

- **The main screen** shows the volume, a mute mark and the current stream
  format ("S16 44100" or "No stream"). A poller keeps it up to date.
- **The settings menu**, driven by the buttons, edits six DAC settings and
  writes them to the ALSA mixer. The settings are HV enable, filter speed,
  high-pass filter, de-emphasis, non-oversampling and phase compensation.
- **The remote thread** sends next, previous and pause to an MPD music
  player. It also changes the volume and the mute of the card. The player
  connection is a `PersistentMPDClient`: each command pings first, and
  reconnects when the connection was lost.

This project models:

- the packaged program, `allo_boss2/boss2_oled.py`;
- the older stand-alone program, `boss2_oled.py`;
- the reconnecting client, `allo_boss2/persistent_mpd.py`.

The two display programs are one state machine with two configurations
(`Menu.Variant`: `Packaged` and `Legacy`). The two differ in these ways:

- the idle timeout (50 s or 30 s);
- what Ok and Down do to the OK box;
- how the stream line is cached;
- how the filter speed is committed;
- the volume steps of the remote.

Modules:

- `PyText`: the Python string operations the parsers rely on:
  - `split()` and `split(c)`;
  - `strip()`;
  - slicing and `in`;
  - `int()` and `str()`.
- `Screens`:
  - the `SCREEN` enumeration, in which `DE` is an alias of `HP`;
  - the buttons and their pins;
  - what each screen draws, as a log of drawing calls.
- `Alsa`:
  - the sound card: switches, filter speed, volumes and the `hw_params` file;
  - a log of every write;
  - the `SoundCtrl` class (`SOUND_CTRL` and the legacy mixer helpers).
- `Stream`: the parse of `hw_params` into the stream line.
- `Menu`:
  - the state of the display (the `OLED` object, or the legacy module
    globals) and the card;
  - every screen function and button callback, as a function from state
    to state;
  - `button_callback`, the idle loop of `main`, and start-up.
- `MenuLaws`: what the menu promises, proved over all states and all input
  sequences.
- `Remote`: one event of `remote_callback`, and the remote thread over a
  sequence of events.
- `RemoteLaws`: the properties of the volume steps and of the remote
  thread.
- `Oled`: the `OLED` object as a class. Its methods update its fields and
  its `SoundCtrl` in place. Each method is proved to leave the object in the
  state the `Menu` function of the same name gives.
- `Mpd`: `PersistentMPDClient` as a class over a connection whose calls
  answer from a script of outcomes:
  - `do_connect`, `try_cmd` and the wrapping done by `__init__`;
  - functions for the run each of those makes.
- `MpdLaws`: what the reconnect protocol promises.

## Model

Source cells are paths relative to the repository root.

| member | source | states |
|---|---|---|
| PyText.WordLen | allo_boss2/boss2_oled.py:133 | the length of the leading run of non-whitespace: that prefix has no whitespace, and the next character, if any, is whitespace |
| PyText.Words | allo_boss2/boss2_oled.py:133 | `str.split()` yields only non-empty words without whitespace |
| PyText.WordsSkipSpace | allo_boss2/boss2_oled.py:133 | leading whitespace does not change the words |
| PyText.WordsWordThenSpace | allo_boss2/boss2_oled.py:133 | a word followed by whitespace is split off as exactly that word |
| PyText.WordsUnwords | allo_boss2/boss2_oled.py:133 | splitting words joined by single spaces gives the words back |
| PyText.SplitOn | allo_boss2/boss2_oled.py:217 | `split(c)` gives at least one piece, no piece contains `c`, and a string containing `c` gives at least two pieces |
| PyText.JoinSplit | allo_boss2/boss2_oled.py:217 | joining the pieces of `split(c)` with `c` gives back the string |
| PyText.LStrip | allo_boss2/boss2_oled.py:218 | the result is the suffix of the input left after its leading run of whitespace: everything removed is whitespace, and the result does not start with whitespace |
| PyText.RStrip | allo_boss2/boss2_oled.py:218 | the result is the prefix of the input left before its trailing run of whitespace: everything removed is whitespace, and the result does not end with whitespace |
| PyText.Strip | allo_boss2/boss2_oled.py:218 | `strip()` neither starts nor ends with whitespace |
| PyText.StripMeaning | allo_boss2/boss2_oled.py:218 | `strip()` keeps a middle part of the string, and all it removes before and after that part is whitespace |
| PyText.Slice | allo_boss2/boss2_oled.py:218 | `s[lo:hi]` is `s[lo..hi]` within bounds, runs to the end when `hi` is past it, and is empty when `hi <= lo` or `lo` is past the end |
| PyText.ContainsAt | boss2_oled.py:380 | a substring occurring at any offset makes `sub in s` true |
| PyText.ContainsWitness | boss2_oled.py:380 | when `sub in s` holds, `s` contains `sub` at some offset |
| PyText.DigitChar | allo_boss2/boss2_oled.py:225 | the digit character of `d` is a decimal digit whose value is `d` |
| PyText.ShowNat | allo_boss2/boss2_oled.py:225 | `str(n)` is non-empty, all digits, without a leading zero |
| PyText.ParseIntMeaning | allo_boss2/boss2_oled.py:221 | `int(tok)` succeeds exactly on digits, or a sign followed by at least one digit (otherwise ValueError), with the decimal value, negated after `-` |
| PyText.DecimalShowNat | allo_boss2/boss2_oled.py:221-225 | the digits `str(n)` prints have the value `n` |
| PyText.ParseShowInt | allo_boss2/boss2_oled.py:221-225 | `int(str(i)) == i` for every integer, so the rate on the stream line reads back as the rate parsed |
| Screens.DefIndex | allo_boss2/boss2_oled.py:60-70 | finds the first definition of a name in the enumeration, or reports that there is none |
| Screens.ScreenOfValue | allo_boss2/boss2_oled.py:60-70 | `SCREEN(v)` is a member whose value is `v`, and fails exactly when no member has value `v` |
| Screens.DeAliasesHp | allo_boss2/boss2_oled.py:60-70 | every definition denotes a member; distinct members have distinct values; `SCREEN.DE` is the member `SCREEN.HP` |
| Screens.ScreenOf | allo_boss2/boss2_oled.py:358-359 | the de-emphasis screen is the member `SCREEN.DE` denotes |
| Screens.ToggleOn | allo_boss2/boss2_oled.py:431-438 | the callbacks never act on de-emphasis, because the `HP` branch precedes the `DE` one; each toggle is acted on from its own screen |
| Screens.ButtonOfPin | allo_boss2/boss2_oled.py:42-47 | `SW_PIN(n)` is the button on pin `n`, and there is none when no button has that pin |
| Screens.LegacyOkNeverDispatched | boss2_oled.py:744-751 | every pin the legacy program wires maps to a button, and none of them to Ok |
| Screens.EveryButtonWired | allo_boss2/boss2_oled.py:704-713 | with all five pins wired, every button reaches `button_callback` |
| Screens.MenuDraws | allo_boss2/boss2_oled.py:239-268 | four lines on rows 0, 2, 4, 6; exactly the cursor line is inverted; the HV and speed lines show the flags |
| Screens.FilterDraws | allo_boss2/boss2_oled.py:270-328 | twelve cells on four rows; exactly the cursor row is inverted; each row shows EN or DIS for its setting |
| Screens.DetailDraws | allo_boss2/boss2_oled.py:330-412 | title not inverted; exactly one of the enabled and disabled labels inverted, as the flag says; the OK box inverted exactly when the OK flag is set |
| Alsa.Switches.Flip | allo_boss2/boss2_oled.py:109-111 | flipping a switch negates it and leaves every other switch alone |
| Alsa.FilterIsFast | allo_boss2/boss2_oled.py:133-135 | raises IndexError exactly when amixer prints fewer than two words; otherwise slow exactly when the second word is `'Slow'` |
| Alsa.FilterStatusRoundTrip | allo_boss2/boss2_oled.py:127-135 | reading what amixer prints for a speed gives that speed back |
| Alsa.CardOfLine | boss2_oled.py:380-383 | IndexError exactly when the line has fewer than two words; otherwise the first character of the second word |
| Alsa.GetCardNumber | boss2_oled.py:372-385 | None exactly when no line of `aplay -l` mentions Boss2; otherwise the card named on the first line that does |
| Alsa.LegacyMuteFlip | boss2_oled.py:358-369 | the legacy mute status is 1 exactly for an enabled switch, and changing it negates the status |
| Alsa.SoundCtrl.constructor | allo_boss2/boss2_oled.py:82-107 | the card starts with the given switches, speed, volumes and stream file, and no writes |
| Alsa.SoundCtrl.GetMuteStatus | allo_boss2/boss2_oled.py:114-116 | returns whether the switch is on |
| Alsa.SoundCtrl.ChangeMuteStatus | allo_boss2/boss2_oled.py:109-111 | flips the switch and logs exactly that write |
| Alsa.SoundCtrl.GetFilterStatus | allo_boss2/boss2_oled.py:127-135 | returns the card's speed, by parsing amixer's output |
| Alsa.SoundCtrl.ChangeFilterStatus | allo_boss2/boss2_oled.py:137-145 | sets the opposite of the current speed and logs that write |
| Alsa.SoundCtrl.SetFilterStatus | boss2_oled.py:403-411 | sets the given speed and logs that write |
| Alsa.SoundCtrl.GetVolume | allo_boss2/boss2_oled.py:617 | returns the Master volume |
| Alsa.SoundCtrl.SetVolume | allo_boss2/boss2_oled.py:648-649 | sets one element's volume and logs that write |
| Stream.FormatFieldMeaning | allo_boss2/boss2_oled.py:216-218 | the format field is characters 1 and 2 of the stripped text after the first colon, fewer when that text is shorter |
| Stream.ScanLineStep | allo_boss2/boss2_oled.py:216-221 | one pass of the loop body over a line: the format field and the rate it records, or the exception it raises, as `ScanLine` |
| Stream.ScanHwParams | allo_boss2/boss2_oled.py:215-221 | the loop over `hw_params` gives what `ParseHwParams` gives, stopping at the first exception |
| Stream.ParseStopsAtError | allo_boss2/boss2_oled.py:215-221 | once a prefix of the file raises, the whole file raises the same exception |
| Stream.LastFormatIndex | allo_boss2/boss2_oled.py:215-218 | the index of the last `format:` line: no later line is one |
| Stream.LastRateIndex | allo_boss2/boss2_oled.py:215-221 | the index of the last `rate:` line: no later line is one |
| Stream.ParseHwParamsMeaning | allo_boss2/boss2_oled.py:208-221 | the parse fails exactly when some `rate:` line cannot be read; otherwise the format comes from the last format line (none when there is none) and the rate from the last rate line (0 when there is none) |
| Stream.HwLineTextMeaning | allo_boss2/boss2_oled.py:222-225 | the packaged line is "No stream" exactly when the file has no format line; otherwise it is "S", the format, a space and the rate, which reads back as the rate |
| Menu.Flags.Set | allo_boss2/boss2_oled.py:423-446 | setting one flag changes exactly that flag |
| Menu.LiveFlags | allo_boss2/boss2_oled.py:163-169 | each flag read at start-up is the card's value of that setting |
| Menu.CheckScreen | allo_boss2/boss2_oled.py:174-178 | the display is cleared, and the packaged cached stream line forgotten, exactly when the screen changes; the new screen is recorded; nothing else changes |
| Menu.BootScreen | allo_boss2/boss2_oled.py:180-188 | the boot screen changes only the screen, the cached line and the drawing log |
| Menu.VolumeLine | allo_boss2/boss2_oled.py:190-198 | draws only, and only on the main screen, where it blanks the old text and shows the given level, or the Master volume read from the card when none is given |
| Menu.MuteLine | allo_boss2/boss2_oled.py:200-206 | draws only, and only on the main screen, where it draws one text at the mark's place: "@" exactly when Master is muted, blanks otherwise |
| Menu.HwLine | allo_boss2/boss2_oled.py:208-231 | changes at most the drawing log, the cached line and the idle counter (which it can only reset); off the main screen it changes nothing; the legacy program keeps the counter and the cache |
| Menu.VolumeScreen | allo_boss2/boss2_oled.py:233-237 | goes to the main screen, changing only the drawing log, the cached line and the idle counter (which it can only reset) |
| Menu.MenuScreen | allo_boss2/boss2_oled.py:239-268 | goes to the main menu and only draws |
| Menu.FilterScreen | allo_boss2/boss2_oled.py:270-328 | goes to the filter menu and only draws |
| Menu.DetailScreen | allo_boss2/boss2_oled.py:330-412 | goes to the toggle's screen and only draws |
| Menu.Left | allo_boss2/boss2_oled.py:414-448 | where Left leads from each screen; on a detail screen it turns the flag on and keeps the rest, and does nothing when the flag is already on |
| Menu.Right | allo_boss2/boss2_oled.py:549-577 | where Right leads from each screen; on a detail screen it turns the flag off; on the filter menu it does nothing |
| Menu.Up | allo_boss2/boss2_oled.py:503-511 | moves only the cursor of the current menu, one line up, stopping at the first; elsewhere nothing changes |
| Menu.WrapDown | allo_boss2/boss2_oled.py:513-523 | the cursor moves one line down and wraps from line 4 to line 1 |
| Menu.Down | allo_boss2/boss2_oled.py:513-547 | moves only the cursor of the current menu, with wrap; on a detail screen it sets the OK box to the variant's value; on the main and boot screens nothing changes |
| Menu.CommitHardware | allo_boss2/boss2_oled.py:471-501 | when the card differs from the displayed value, exactly one write brings it to that value, otherwise none; afterwards the card holds the displayed value; the legacy speed commit records the card's speed and the speed it sets |
| Menu.Commit | allo_boss2/boss2_oled.py:471-501 | the OK box takes the variant's value; the card ends on the displayed value with at most one write; HV and speed return to the main menu, the filter settings to the filter menu |
| Menu.OpenFromMenu | allo_boss2/boss2_oled.py:451-459 | Ok on main-menu lines 1 to 4 opens boot, HV, filter and speed, changing only the screen and the display |
| Menu.OpenFromFilter | allo_boss2/boss2_oled.py:462-470 | Ok on filter lines 1 to 4 opens phase, HP, HP (the `DE` alias) and non-oversampling, changing only the screen and the display |
| Menu.OkPress | allo_boss2/boss2_oled.py:450-501 | opening a screen writes nothing and changes no setting; on the main screen Ok does nothing; on a detail screen it commits |
| MenuLaws.CommitWriteTouchesOnly | allo_boss2/boss2_oled.py:471-501 | a commit write changes the card only in the setting it is for |
| MenuLaws.CursorRules | allo_boss2/boss2_oled.py:503-547 | Up stops at line 1, Down wraps from 4 to 1, each moves only its own menu's cursor, and no button takes a cursor out of [1, 4] |
| MenuLaws.CursorsKept | allo_boss2/boss2_oled.py:414-591 | only Up and Down move a cursor |
| MenuLaws.Navigation | allo_boss2/boss2_oled.py:414-577 | the screen each arrow leads to from each screen |
| MenuLaws.OkDispatch | allo_boss2/boss2_oled.py:450-470 | the screen Ok opens from each menu line, including the HP screen for line DE-EMP; opening writes nothing and keeps the flags and the OK box |
| MenuLaws.CommitRule | allo_boss2/boss2_oled.py:471-501 | on a detail screen, Ok writes once exactly when the card differs from the display, leaves the card holding the displayed value and every other setting as it was, and returns to the menu the screen belongs to |
| MenuLaws.SpeedCommit | boss2_oled.py:522-528 | both programs write the displayed speed; the legacy one leaves the card's old speed in filter_cur and the displayed one in filter_mod |
| MenuLaws.DetailLeft | allo_boss2/boss2_oled.py:423-446 | Left on a detail screen sets only that screen's flag, and a second Left changes nothing |
| MenuLaws.DetailRight | allo_boss2/boss2_oled.py:554-577 | Right on a detail screen clears only that screen's flag, and a second Right only redraws |
| MenuLaws.FlagsSetKeeps | allo_boss2/boss2_oled.py:423-446 | setting a flag to its own value changes nothing |
| MenuLaws.DetailUpDown | allo_boss2/boss2_oled.py:503-547 | on a detail screen Up does nothing and Down only sets the OK box to the variant's value |
| MenuLaws.DownOkContrast | boss2_oled.py:564-602 | the packaged Down clears the OK box; the legacy Down sets it |
| MenuLaws.DeEmphasisUntouched | allo_boss2/boss2_oled.py:431-438 | no button changes the de-emphasis flag or the de-emphasis switch |
| MenuLaws.DeScreenEditsHighPass | allo_boss2/boss2_oled.py:358-370 | the screen opened from DE-EMP draws "DE-EMPH", but Left and Ok on it edit and commit the high-pass filter |
| MenuLaws.HwLineRules | allo_boss2/boss2_oled.py:208-231 | the packaged line is "No stream" exactly when there is no format line; it redraws and resets the idle counter only when the text changed, so a second poll changes nothing; the legacy program draws on every poll |
| MenuLaws.IdleLoop | allo_boss2/boss2_oled.py:715-721 | over `n` idle seconds the counter grows by `n`; the panel is powered up once, at the first test when the counter was 0, and powered down at every test once the counter has reached the threshold |
| MenuLaws.IdleFromPress | boss2_oled.py:753-759 | after a press during the sleep the panel is powered up at the very next test, and powered down on every second from the threshold on |
| MenuLaws.PressPreserves | allo_boss2/boss2_oled.py:579-591 | a press keeps the cursors in range and every setting outside the edited screen in step with the card; it never touches de-emphasis; the write and drawing logs only grow |
| MenuLaws.StepPreserves | allo_boss2/boss2_oled.py:696-721 | the same holds for a press, an idle second or a stream-line poll |
| MenuLaws.RunPreserves | allo_boss2/boss2_oled.py:696-721 | the same holds after any sequence of inputs |
| MenuLaws.StartupState | allo_boss2/boss2_oled.py:594-691 | after start-up the display is on the main screen with the card's settings, the OK box clear and nothing written; the legacy counter is 1 and its first idle test powers the panel up |
| MenuLaws.SyncedOutsideDetail | allo_boss2/boss2_oled.py:163-169 | outside a detail screen, the displayed settings are exactly the card's |
| MenuLaws.NoWriteWithoutOk | allo_boss2/boss2_oled.py:414-577 | no button but Ok changes the card or the write log |
| MenuLaws.LegacyAsWrittenNeverWrites | boss2_oled.py:744-751 | as wired, no sequence of inputs of the legacy program ever writes a setting to the card |
| MenuLaws.RunAppend | allo_boss2/boss2_oled.py:579-591 | running two input sequences one after the other is running their concatenation |
| MenuLaws.OpenSpeedScreen | allo_boss2/boss2_oled.py:549-551 | Right, Down three times, Ok goes from the main screen to the speed screen and changes no setting or card |
| MenuLaws.ChooseFastCommits | allo_boss2/boss2_oled.py:427-430 | on the speed screen with a slow card, Left then Ok writes Fast once and returns to the menu |
| MenuLaws.SelectFastNeedsOk | boss2_oled.py:744-751 | the selection uses only wired pins once Ok is wired, and a pin the legacy program does not wire |
| MenuLaws.SelectFastCommits | allo_boss2/boss2_oled.py:704-713 | with Ok wired, both programs write Fast exactly once and end on the menu showing the fast setting |
| Remote.PackagedVolumeUp | allo_boss2/boss2_oled.py:642-646 | two more below 200, one more from 200, and 255 from 254 on; never above 255 |
| Remote.PackagedVolumeDown | allo_boss2/boss2_oled.py:652-659 | two less from 2 to 199, one less from 200 on, and 0 at 2 or below; never below 0 |
| Remote.LegacyVolumeUp | boss2_oled.py:441 | one more below 100, and 100 from 99 on |
| Remote.LegacyVolumeDown | boss2_oled.py:446 | one less above 0, and 0 at 1 or below |
| Remote.SetBothVolumes | allo_boss2/boss2_oled.py:648-650 | Digital then Master get the level, nothing else on the card changes, and on the main screen the volume line shows that level without reading the card again |
| Remote.ToggleMute | allo_boss2/boss2_oled.py:630-633 | flips Master then Digital, nothing else on the card changes, and on the main screen the mute mark is redrawn: "@" exactly when Master is now muted |
| Remote.Handle | allo_boss2/boss2_oled.py:615-666 | a release or a non-key event changes nothing; any accepted event resets the idle counter; Right, Left and Play send next, previous and pause; the volume keys step from the remembered (packaged) or read (legacy) level; mute flips both switches; other keys touch neither the card nor the level |
| Remote.StartRemote | allo_boss2/boss2_oled.py:617 | the thread starts with the Master volume as its remembered level |
| RemoteLaws.PackagedVolumeSteps | allo_boss2/boss2_oled.py:641-663 | both steps stay in [0, 255]; Down undoes Up exactly below 198 and from 200 to 254; Up undoes Down exactly from 2 to 199 and from 201 on |
| RemoteLaws.LegacyVolumeSteps | boss2_oled.py:440-449 | both steps stay in [0, 100]; Down undoes Up exactly below 100, Up undoes Down exactly above 0 |
| RemoteLaws.PackagedUpsReachMax | allo_boss2/boss2_oled.py:641-650 | holding volume-up reaches 255 within 255 - c presses and stays there |
| RemoteLaws.LegacyUpsClosedForm | boss2_oled.py:440-444 | `n` presses raise the percentage by `n`, up to 100 |
| RemoteLaws.HandleTracks | allo_boss2/boss2_oled.py:641-663 | while nothing else writes Master, the remembered level stays the card's Master volume, so both programs step from the card's volume, and Master and Digital end equal |
| RemoteLaws.ExternalMasterWrite | allo_boss2/boss2_oled.py:617-660 | after another client sets Master to `v`, a volume key makes the legacy program step from `v` and the packaged program from its remembered level, whatever `v` is |
| RemoteLaws.MuteTwice | allo_boss2/boss2_oled.py:630-633 | one mute negates both switches; two give the card back |
| RemoteLaws.RemoteKeepsSettings | allo_boss2/boss2_oled.py:615-666 | no remote key changes any of the six settings on the card |
| RemoteLaws.RemoteRunPreserves | allo_boss2/boss2_oled.py:615-666 | any sequence of key events leaves the screen, cursors, flags, OK box and cached line alone, keeps the menu invariants and the remembered level, and only appends to the logs |
| RemoteLaws.StepKeepsVolume | allo_boss2/boss2_oled.py:579-591 | no button press, idle second or poll changes the Master volume |
| RemoteLaws.InterleavePreserves | allo_boss2/boss2_oled.py:615-721 | any interleaving of button presses, idle seconds, polls and remote key events keeps the menu invariants, keeps the remembered level equal to Master, leaves de-emphasis alone, and only appends to the logs |
| Oled.Oled.constructor | allo_boss2/boss2_oled.py:151-172 | the object starts on the main screen with both cursors on 1 and the flags read from the card (all off in the legacy globals) |
| Oled.Oled.Show | allo_boss2/boss2_oled.py:180-188 | appends drawing calls |
| Oled.Oled.CheckScreen | allo_boss2/boss2_oled.py:174-178 | updates the object as `Menu.CheckScreen` does |
| Oled.Oled.BootScreen | allo_boss2/boss2_oled.py:180-188 | as `Menu.BootScreen` |
| Oled.Oled.VolumeLine | allo_boss2/boss2_oled.py:190-198 | as `Menu.VolumeLine` |
| Oled.Oled.MuteLine | allo_boss2/boss2_oled.py:200-206 | as `Menu.MuteLine` |
| Oled.Oled.HwLine | allo_boss2/boss2_oled.py:208-231 | as `Menu.HwLine`, by the loop over the lines of `hw_params` |
| Oled.Oled.VolumeScreen | allo_boss2/boss2_oled.py:233-237 | as `Menu.VolumeScreen` |
| Oled.Oled.MenuScreen | allo_boss2/boss2_oled.py:239-268 | as `Menu.MenuScreen` |
| Oled.Oled.FilterScreen | allo_boss2/boss2_oled.py:270-328 | as `Menu.FilterScreen` |
| Oled.Oled.DetailScreen | allo_boss2/boss2_oled.py:330-412 | as `Menu.DetailScreen` |
| Oled.Oled.SwLeftCallback | allo_boss2/boss2_oled.py:414-448 | as `Menu.Left` |
| Oled.Oled.SwRightCallback | allo_boss2/boss2_oled.py:549-577 | as `Menu.Right` |
| Oled.Oled.SwUpCallback | allo_boss2/boss2_oled.py:503-511 | as `Menu.Up` |
| Oled.Oled.SwDownCallback | allo_boss2/boss2_oled.py:513-547 | as `Menu.Down` |
| Oled.Oled.CommitSpeed | allo_boss2/boss2_oled.py:476-480 | the speed commit on the card, as `Menu.CommitHardware` |
| Oled.Oled.CommitSwitch | allo_boss2/boss2_oled.py:471-474 | a switch commit on the card, as `Menu.CommitHardware` |
| Oled.Oled.Commit | allo_boss2/boss2_oled.py:471-501 | as `Menu.Commit` |
| Oled.Oled.SwOkCallback | allo_boss2/boss2_oled.py:450-501 | as `Menu.OkPress` |
| Oled.Oled.ButtonCallback | allo_boss2/boss2_oled.py:579-591 | as `Menu.PressPin` |
| Oled.Oled.Start | boss2_oled.py:689-757 | start-up up to the first sleep of the idle loop, as `Menu.Startup` |
| Oled.Oled.ReadSettings | boss2_oled.py:724-742 | the legacy globals take the card's settings |
| Oled.Oled.IdleCheck | allo_boss2/boss2_oled.py:716-719 | the test at the head of the idle loop, as `Menu.IdleCheck` |
| Oled.Oled.IdleTick | allo_boss2/boss2_oled.py:715-721 | one second of the idle loop from the sleep on, as `Menu.IdleTick`: the counter is incremented and the loop's test runs |
| Oled.Oled.IdleLoop | allo_boss2/boss2_oled.py:715-721 | `n` seconds of the idle loop, as `Menu.Run` over `n` ticks |
| Oled.Oled.HandleKey | allo_boss2/boss2_oled.py:619-666 | one remote event, as `Remote.Handle` |
| Oled.Oled.RemoteLoop | allo_boss2/boss2_oled.py:615-666 | the remote thread over a sequence of events, as `Remote.RemoteRun` from the Master volume |
| Oled.HandleAppends | allo_boss2/boss2_oled.py:619-666 | the commands of one event are appended to those sent before |
| Mpd.DoConnectRun | allo_boss2/persistent_mpd.py:52-76 | do_connect makes one to three calls, the first a disconnect |
| Mpd.Reconnect | allo_boss2/persistent_mpd.py:40-46 | the handler makes calls exactly when the ping reported a lost connection |
| Mpd.TryCmdRun | allo_boss2/persistent_mpd.py:38-49 | a wrapped call starts with a ping |
| Mpd.RawRun | allo_boss2/persistent_mpd.py:20-26 | an unwrapped command is one call whose outcome reaches the caller |
| Mpd.WrapList | allo_boss2/persistent_mpd.py:18-28 | a command is wrapped exactly when the server lists it, it is not "ping" and the client class has it |
| Mpd.Client.Ep | allo_boss2/persistent_mpd.py:71-74 | connect uses the socket path (and no port) when it is set and non-empty, else host and port |
| Mpd.Client.Init | allo_boss2/persistent_mpd.py:5-9 | the client keeps socket, host and port, and has made no calls |
| Mpd.Client.Transport | allo_boss2/persistent_mpd.py:42 | one call: the next scripted outcome, logged |
| Mpd.Client.DoConnect | allo_boss2/persistent_mpd.py:52-76 | makes the calls and raises what `DoConnectRun` says |
| Mpd.Client.RawCall | allo_boss2/persistent_mpd.py:22-23 | as `RawRun` |
| Mpd.Client.TryCmd | allo_boss2/persistent_mpd.py:38-49 | makes the calls and raises what `TryCmdRun` says |
| Mpd.Client.Call | allo_boss2/persistent_mpd.py:20-26 | a wrapped command runs as `TryCmdRun`, any other as `RawRun` |
| Mpd.Client.WrapCommands | allo_boss2/persistent_mpd.py:20-28 | the loop of `__init__` wraps `WrapList` of the command list |
| Mpd.Client.FetchAndWrap | allo_boss2/persistent_mpd.py:13-28 | one `commands` call; on success the command list is the server's and the wrapped set is `WrapList` of it |
| Mpd.Client.Open | allo_boss2/persistent_mpd.py:5-28 | construction: do_connect, then commands and the wrapping; an exception from either reaches the caller |
| MpdLaws.CountAppend | allo_boss2/persistent_mpd.py:38-49 | the counts of pings and commands add up over concatenation |
| MpdLaws.CountNone | allo_boss2/persistent_mpd.py:52-76 | a trace of disconnects and connects has no pings and no commands |
| MpdLaws.DoConnectProtocol | allo_boss2/persistent_mpd.py:52-76 | a second disconnect happens exactly after a broken pipe; it connects unless the first disconnect raised another OSError or a non-OSError; it raises exactly on a non-OSError first disconnect or a connect failing with something other than an OSError, and never lets an OSError out |
| MpdLaws.WrappedCounts | allo_boss2/persistent_mpd.py:38-49 | a ping, reconnect events and possibly the command count one ping, and one command exactly when it is there |
| MpdLaws.ReconnectEvents | allo_boss2/persistent_mpd.py:43-46 | the handler makes at most three calls, all disconnects or connects |
| MpdLaws.TryCmdExactlyOnce | allo_boss2/persistent_mpd.py:38-49 | a wrapped call pings exactly once; the command runs exactly once, last, unless the ping raised something else or do_connect raised, and then not at all; the caller sees the command's own outcome or that exception; at most five calls |
| MpdLaws.DoConnectEvents | allo_boss2/persistent_mpd.py:52-76 | do_connect always disconnects, never pings or runs a command, and connects (only to the chosen endpoint) exactly when the first disconnect did not raise another OSError or a non-OSError |
| MpdLaws.ReconnectIff | allo_boss2/persistent_mpd.py:38-49 | a wrapped call disconnects exactly when the ping reported a lost connection, and connects exactly when it also got past the first disconnect |
| MpdLaws.CommandSurvivesSocketErrors | allo_boss2/persistent_mpd.py:38-76 | when every failure is an OSError, the command always runs, once, as the last call |
| MpdLaws.CallIsWrappedIff | allo_boss2/persistent_mpd.py:18-28 | a call goes through the wrapper exactly when the server listed it, it is not "ping" and the class has it; "ping" is never wrapped |

## Left out

- The SH1106 driver: drawing is a log of calls. The boot screen's host name
  and addresses are one `BootInfo` call. The volume text rendered from
  ALSA's decibel value (`db_show_vol`, `ask_volume_dB`, `centerString`) is
  one `VolumeInfo(level)` call.
- Threads, the display lock, `sched` timing and `time.sleep`: the poller,
  the idle loop, the buttons and the remote are interleaved one whole
  callback at a time (`RemoteLaws.Event`, `RemoteLaws.Interleave`). A
  second of the idle loop is grouped from the sleep on (increment, then
  test), so a press during the sleep lands between two ticks; a press in
  the instant between the increment and the test is not modelled.
- Signals and `cleanup`, which power the panel down and exit.
- Discovery of the hardware, which needs the operating system:
  - the card: the packaged `getCardNumber` through `alsacard`, and its
    `exit(0)` when no card is found;
  - the mixer set-up;
  - the IR device: evdev's `list_devices`;
  - `netifaces` and the host name.
- The legacy program's unbound `ir_device` when no IR receiver is found.
  The model assumes a receiver.
- Remote.Handle: player commands are recorded as sent. They are not routed
  through `Mpd.Client`. A failure, including the `NameError` when the client
  was never constructed, is swallowed by the source, so the display and the
  card do not depend on it.
- Remote.Handle: Master volume units differ by variant: a raw 0-255 value
  (pyalsa) in the packaged program, a 0-100 percentage (alsaaudio) in the
  legacy one. Both live in the same `masterVol` field.
- Menu.HwLine: in the source, an exception while reading or parsing
  `hw_params` ends the poller thread. In the model that poll leaves the
  state unchanged and later polls still run. A missing file is not modelled.
- Menu.PressPin: an unknown pin raises ValueError in the packaged
  `SW_PIN(n)`. The model only resets the idle counter, as the legacy
  program does.
- Menu.PressPin: the legacy `button_callback` compares `btn.pin`, a
  gpiozero pin object, with the integer pin numbers, where the packaged
  program compares `btn.pin.number`. The model assumes the legacy
  comparison holds for the pressed pin. If it never held, no legacy button
  would do anything but reset the idle counter.
- Alsa.SoundCtrl.GetFilterStatus: the model builds amixer's output from the
  card's speed, so that output always has at least two words. The
  IndexError of `word_str[1]` on empty or malformed output cannot happen in
  the model, and so never reaches `OLED()` or a commit. `Alsa.FilterIsFast`
  states that error case for any text.
- PyText.IsSpace: whitespace is the ASCII set; Unicode whitespace is not
  modelled.
- PyText.ParseInt: `int()` also accepts digit-group underscores and
  non-ASCII decimal digits; the model does not.
- Mpd.Client: the connection answers call `n` with `script[n]` and answers
  `Fine` once the script is exhausted. The arguments of commands, their
  return values and the `print` calls are not modelled. `hasattr(super(),
  cmd)` is the set `methods`. `setattr` is the list `wrapped`.
- The legacy `persistent_mpd.py` is not part of this model.
- RemoteLaws.HandleTracks: only this daemon writes the card. Another mixer
  client (alsamixer, or the player's hardware mixer) that sets Master is
  not an event of the model. In the source the packaged thread reads
  Master once (`allo_boss2/boss2_oled.py:617`) and then steps from its own
  `curr_vol`, so after such a write its remembered level is stale, while
  the legacy program re-reads Master on every key (`boss2_oled.py:441`,
  `446`). The displayed settings of `MenuLaws.SyncedOutsideDetail` go
  stale in the same way. `RemoteLaws.ExternalMasterWrite` states what one
  volume key does after such a write.
- Behaviour of the source worth knowing, which the model keeps:
  - the packaged Ok sets the OK box (`allo_boss2/boss2_oled.py:472-498`),
    and Down clears it (`allo_boss2/boss2_oled.py:525-538`);
  - the panel is powered down again on every idle second past the
    threshold (`allo_boss2/boss2_oled.py:716-717`);
  - in a wrapped call, an exception other than a lost connection
    propagates without the command running
    (`allo_boss2/persistent_mpd.py:40-47`);
  - the legacy stream line always prints `S{bit_rate} {bit_format}`, so it
    reads "Sclosed 0" when there is no stream, and is not cached
    (`boss2_oled.py:153-171`).

## Findings

| source | as written | input that shows it | evidently intended | confidence | as-written member | corrected member |
|---|---|---|---|---|---|---|
| boss2_oled.py:744-751 | `main` creates buttons for Left, Right, Up and Down only. No button on pin 15 (Ok) calls `button_callback`, so `sw_ok_callback`, the only place that writes a setting, never runs. | Right, Down, Down, Down, Ok, Left, Ok (pins 24, 8, 8, 8, 15, 14, 15), which should select and commit the fast filter: the two Ok presses are never delivered, and the card is never written | a fifth button on pin 15 wired to `button_callback`, as `allo_boss2/boss2_oled.py:712-713` does | not executed | MenuLaws.LegacyAsWrittenNeverWrites | MenuLaws.SelectFastCommits |
