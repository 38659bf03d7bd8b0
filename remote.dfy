/** The infra-red remote: the evdev key events the remote thread reads, the
    player commands it sends, and the volume and mute keys, which write to
    the card and redraw the volume screen. */
module Remote {
  import opened PyText
  import opened Screens
  import opened Alsa
  import opened Menu

  /** Linux input event type and key codes (linux/input-event-codes.h). */
  const EvKey := 1
  const KeyLeft := 105
  const KeyRight := 106
  const KeyMute := 113
  const KeyVolumeDown := 114
  const KeyVolumeUp := 115
  const KeyPlay := 207
  const KeyOk := 352

  /** Values of a key event that the remote thread reacts to: press and
      auto-repeat (a release has value 0). */
  const PressHoldEvents: seq<int> := [1, 2]

  datatype KeyEvent = KeyEvent(kind: int, code: int, value: int)

  /** A key press or hold, as opposed to a release or a non-key event. */
  predicate Accepted(e: KeyEvent) {
    e.kind == EvKey && e.value in PressHoldEvents
  }

  /** The player commands the remote sends; a failure of the player
      connection is swallowed, so only the attempt is recorded. */
  datatype PlayerCmd = NextSong | PreviousSong | Pause

  /** The remote thread: the display and card it shares with the buttons,
      the volume it remembers (`curr_vol`, packaged program only) and the
      commands it sent to the player. */
  datatype RemoteState = RemoteState(lcd: State, currVol: int, player: seq<PlayerCmd>)

  /** One press of volume-up in the packaged program: two steps below 200,
      one step from there on, never above 255. */
  function PackagedVolumeUp(c: int): (n: int)
    ensures n <= 255 && (c < 255 ==> c < n)
    ensures c < 200 ==> n == c + 2
    ensures 200 <= c < 255 ==> n == c + 1
    ensures c >= 254 ==> n == 255
  {
    var v := if c < 200 then c + 2 else c + 1;
    if v < 255 then v else 255
  }

  /** One press of volume-down in the packaged program: two steps below 200,
      one step from there on, never below 0. */
  function PackagedVolumeDown(c: int): (n: int)
    ensures n >= 0 && (c > 0 ==> n < c)
    ensures 2 <= c < 200 ==> n == c - 2
    ensures c <= 2 ==> n == 0
    ensures c >= 200 ==> n == c - 1
  {
    var v := if c < 200 then c - 2 else c - 1;
    if v > 0 then v else 0
  }

  /** One step of the legacy program, on a 0..100 percentage. */
  function LegacyVolumeUp(v: int): (n: int)
    ensures n <= 100 && (v < 100 ==> n == v + 1)
    ensures v >= 99 ==> n == 100
  {
    if v + 1 < 100 then v + 1 else 100
  }

  function LegacyVolumeDown(v: int): (n: int)
    ensures n >= 0 && (v > 0 ==> n == v - 1)
    ensures v <= 1 ==> n == 0
  {
    if v - 1 > 0 then v - 1 else 0
  }

  /** The level a volume key starts from: the remembered `curr_vol` in the
      packaged program, the Master volume read from the card in the legacy
      one. */
  function StartLevel(r: RemoteState): int {
    if r.lcd.variant == Packaged then r.currVol else r.lcd.card.masterVol
  }

  function VolumeStep(v: Variant, up: bool, level: int): int {
    match v
    case Packaged => if up then PackagedVolumeUp(level) else PackagedVolumeDown(level)
    case Legacy => if up then LegacyVolumeUp(level) else LegacyVolumeDown(level)
  }

  /** Both mixers to `level`, Digital first, then the volume line shows it. */
  function SetBothVolumes(s: State, level: int): (r: State)
    ensures r == s.(card := r.card, writes := r.writes, drawn := r.drawn)
    ensures r.card == s.card.(masterVol := level, digitalVol := level)
    ensures r.writes == s.writes + [WriteVolume(DigitalCtl, level), WriteVolume(MasterCtl, level)]
    ensures s.drawn <= r.drawn
    ensures s.screen != Main ==> r.drawn == s.drawn
    ensures s.screen == Main ==> |r.drawn| == |s.drawn| + 2 && r.drawn[|r.drawn| - 1] == VolumeInfo(level)
  {
    VolumeLine(Write(Write(s, WriteVolume(DigitalCtl, level)), WriteVolume(MasterCtl, level)), Some(level))
  }

  /** Mute flips Master, then Digital, then redraws the mute mark. */
  function ToggleMute(s: State): (r: State)
    ensures r == s.(card := r.card, writes := r.writes, drawn := r.drawn)
    ensures r.card == s.card.(sw := s.card.sw.Flip(MasterCtl).Flip(DigitalCtl))
    ensures r.writes == s.writes + [ToggleSwitch(MasterCtl), ToggleSwitch(DigitalCtl)]
    ensures s.drawn <= r.drawn
    ensures s.screen != Main ==> r.drawn == s.drawn
    ensures s.screen == Main ==> MuteMarkDrawn(s.drawn, r.drawn, !r.card.sw.master) && !r.card.sw.master == s.card.sw.master
  {
    MuteLine(Write(Write(s, ToggleSwitch(MasterCtl)), ToggleSwitch(DigitalCtl)))
  }

  /** One event of the remote thread. Every accepted event, whatever its
      code, resets the idle counter; other events change nothing. */
  function Handle(r: RemoteState, e: KeyEvent): (r': RemoteState)
    ensures !Accepted(e) ==> r' == r
    ensures Accepted(e) ==> r'.lcd.idle == 0
    ensures r'.lcd == r.lcd.(card := r'.lcd.card, writes := r'.lcd.writes, drawn := r'.lcd.drawn, idle := r'.lcd.idle)
    ensures r.lcd.drawn <= r'.lcd.drawn
    ensures r'.player == r.player + (if !Accepted(e) then []
                                      else if e.code == KeyRight then [NextSong]
                                      else if e.code == KeyLeft then [PreviousSong]
                                      else if e.code == KeyPlay then [Pause] else [])
    ensures Accepted(e) && (e.code == KeyVolumeUp || e.code == KeyVolumeDown) ==>
      var level := VolumeStep(r.lcd.variant, e.code == KeyVolumeUp, StartLevel(r));
      && r'.lcd.card == r.lcd.card.(masterVol := level, digitalVol := level)
      && r'.lcd.writes == r.lcd.writes + [WriteVolume(DigitalCtl, level), WriteVolume(MasterCtl, level)]
      && r'.currVol == (if r.lcd.variant == Packaged then level else r.currVol)
    ensures Accepted(e) && e.code == KeyMute ==>
      && r'.lcd.card == r.lcd.card.(sw := r.lcd.card.sw.Flip(MasterCtl).Flip(DigitalCtl))
      && r'.lcd.writes == r.lcd.writes + [ToggleSwitch(MasterCtl), ToggleSwitch(DigitalCtl)]
      && r'.currVol == r.currVol
    ensures Accepted(e) && e.code != KeyVolumeUp && e.code != KeyVolumeDown && e.code != KeyMute ==>
      r'.lcd.card == r.lcd.card && r'.lcd.writes == r.lcd.writes && r'.currVol == r.currVol
  {
    if !Accepted(e) then r
    else
      var r1 :=
        if e.code == KeyRight then r.(player := r.player + [NextSong])
        else if e.code == KeyLeft then r.(player := r.player + [PreviousSong])
        else if e.code == KeyMute then r.(lcd := ToggleMute(r.lcd))
        else if e.code == KeyPlay then r.(player := r.player + [Pause])
        else if e.code == KeyOk then r
        else if e.code == KeyVolumeUp || e.code == KeyVolumeDown then
          var level := VolumeStep(r.lcd.variant, e.code == KeyVolumeUp, StartLevel(r));
          var cv := if r.lcd.variant == Packaged then level else r.currVol;
          RemoteState(SetBothVolumes(r.lcd, level), cv, r.player)
        else r;
      r1.(lcd := r1.lcd.(idle := 0))
  }

  /** The remote thread starts by reading the Master volume. */
  function StartRemote(s: State): (r: RemoteState)
    ensures r.lcd == s && r.player == [] && StartLevel(r) == s.card.masterVol
  {
    RemoteState(s, s.card.masterVol, [])
  }

  function RemoteRun(r: RemoteState, events: seq<KeyEvent>): RemoteState
    decreases |events|
  {
    if events == [] then r else RemoteRun(Handle(r, events[0]), events[1..])
  }
}
