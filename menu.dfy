/** The settings menu of the display as a state machine. `State` holds the
    fields of the OLED object (of the module globals in the legacy program),
    the sound card it drives and the log of drawing calls; every callback is
    a function from state to state. The packaged and the legacy program are
    two configurations (`Variant`) of the one machine. */
module Menu {
  import opened PyText
  import opened Screens
  import opened Alsa
  import opened Stream

  datatype Variant = Packaged | Legacy

  /** Seconds without input after which the idle loop powers the panel down. */
  function IdleThreshold(v: Variant): int {
    match v
    case Packaged => 50
    case Legacy => 30
  }

  /** The six settings as the display shows them (hv_en, fil_sp, hp_fil,
      de_emp, non_os, ph_comp). */
  datatype Flags = Flags(hvEn: bool, filSp: bool, hpFil: bool, deEmp: bool, nonOs: bool, phComp: bool) {
    function Get(t: Toggle): bool {
      match t
      case HvEnable => hvEn
      case FilterSpeed => filSp
      case HighPass => hpFil
      case DeEmphasis => deEmp
      case NonOversample => nonOs
      case PhaseComp => phComp
    }

    /** The flags with `t` set to `v`; the other five are kept. */
    function Set(t: Toggle, v: bool): (r: Flags)
      ensures r.Get(t) == v
      ensures forall u: Toggle :: u != t ==> r.Get(u) == Get(u)
    {
      match t
      case HvEnable => this.(hvEn := v)
      case FilterSpeed => this.(filSp := v)
      case HighPass => this.(hpFil := v)
      case DeEmphasis => this.(deEmp := v)
      case NonOversample => this.(nonOs := v)
      case PhaseComp => this.(phComp := v)
    }
  }

  /** The mixer switch behind a setting; the filter speed is an enumeration,
      not a switch. */
  function ControlOf(t: Toggle): Control
    requires t != FilterSpeed
  {
    match t
    case HvEnable => HvCtl
    case HighPass => HighPassCtl
    case DeEmphasis => DeEmphasisCtl
    case NonOversample => NonOversampleCtl
    case PhaseComp => PhaseCompCtl
  }

  /** The value of a setting on the card itself. */
  function Live(card: Card, t: Toggle): bool {
    if t == FilterSpeed then card.fast else card.sw.Get(ControlOf(t))
  }

  /** The flags read from the card at start-up. */
  function LiveFlags(card: Card): (f: Flags)
    ensures forall t: Toggle :: f.Get(t) == Live(card, t)
  {
    Flags(card.sw.hv, card.fast, card.sw.hp, card.sw.de, card.sw.non, card.sw.ph)
  }

  datatype State = State(
    variant: Variant,
    screen: Screen,         // current_screen (scr_num)
    mIndx: int,             // main menu cursor
    fIndx: int,             // filter menu cursor
    flags: Flags,           // the settings as displayed and edited
    okFlag: bool,           // whether the OK box is drawn inverted
    hwLine: string,         // current_hw_line, the cached stream line (packaged)
    idle: int,              // led_off_counter
    filterCur: bool,        // filter_cur
    filterMod: bool,        // filter_mod (legacy)
    card: Card,             // the sound card
    writes: seq<HwWrite>,   // every command sent to the card, in order
    drawn: seq<DisplayOp>)  // every drawing call, in order

  /** Both cursors on one of the four lines of their menu. */
  predicate Valid(s: State) {
    1 <= s.mIndx <= 4 && 1 <= s.fIndx <= 4
  }

  /** Every setting except the one the current detail screen edits shows the
      value the card has. */
  predicate Synced(s: State) {
    forall t: Toggle :: ToggleOn(s.screen) != Some(t) ==> s.flags.Get(t) == Live(s.card, t)
  }

  function Draw(s: State, ops: seq<DisplayOp>): State {
    s.(drawn := s.drawn + ops)
  }

  function Write(s: State, w: HwWrite): State {
    s.(card := s.card.Apply(w), writes := s.writes + [w])
  }

  /** _check_screen: the display is cleared (and, in the packaged program,
      the cached stream line forgotten) exactly when the screen changes; the
      new screen is recorded in every case. */
  function CheckScreen(s: State, scr: Screen): (r: State)
    ensures r.screen == scr
    ensures r.drawn == s.drawn + (if s.screen != scr then [Clear] else [])
    ensures r.hwLine == (if s.variant == Packaged && s.screen != scr then "" else s.hwLine)
    ensures r == s.(screen := scr, drawn := r.drawn, hwLine := r.hwLine)
  {
    if s.screen == scr then s
    else if s.variant == Packaged then Draw(s, [Clear]).(hwLine := "", screen := scr)
    else Draw(s, [Clear]).(screen := scr)
  }

  /** boot_screen: clear, then the host name and addresses. */
  function BootScreen(s: State): (r: State)
    ensures r == s.(screen := Boot, drawn := r.drawn, hwLine := r.hwLine)
    ensures s.drawn <= r.drawn
  {
    Draw(CheckScreen(s, Boot), [Clear, BootInfo])
  }

  /** volume_line: only on the main screen, where the old text is blanked
      and the level shown is the given one or, without an argument, the
      Master volume read from the card. */
  function VolumeLine(s: State, volume: Option<int>): (r: State)
    ensures r == s.(drawn := r.drawn) && s.drawn <= r.drawn
    ensures s.screen != Main ==> r == s
    ensures s.screen == Main ==>
      && |r.drawn| == |s.drawn| + 2 && r.drawn[|s.drawn|].Text?
      && r.drawn[|r.drawn| - 1] == VolumeInfo(if volume.Some? then volume.value else s.card.masterVol)
  {
    if s.screen != Main then s
    else
      var level := if volume.Some? then volume.value else s.card.masterVol;
      var blank := if s.variant == Packaged then Text(1, 2, "     ", false) else Text(1, 10, "              ", false);
      Draw(s, [blank, VolumeInfo(level)])
  }

  /** `after` is `before` plus one text call at the mute mark's place that
      shows "@" exactly when `muted`, and blanks the place otherwise. */
  predicate MuteMarkDrawn(before: seq<DisplayOp>, after: seq<DisplayOp>, muted: bool) {
    && |after| == |before| + 1 && after[..|before|] == before
    && var op := after[|before|];
    && op.Text? && op.row == 3 && op.col == 50 && !op.inverted
    && (op.text == "@" <==> muted)
    && (!muted ==> forall k :: 0 <= k < |op.text| ==> op.text[k] == ' ')
  }

  /** mute_line: only on the main screen; "@" while Master is muted. */
  function MuteLine(s: State): (r: State)
    ensures r == s.(drawn := r.drawn) && s.drawn <= r.drawn
    ensures s.screen != Main ==> r == s
    ensures s.screen == Main ==> MuteMarkDrawn(s.drawn, r.drawn, !s.card.sw.master)
  {
    if s.screen != Main then s
    else Draw(s, [Text(3, 50, if s.card.sw.master then "  " else "@", false)])
  }

  /** hw_line: only on the main screen. The packaged program redraws (and
      resets the idle counter) only when the text differs from the cached
      one; the legacy program always draws. A file that does not parse
      leaves the state as it was. */
  function HwLine(s: State): (r: State)
    ensures r == s.(drawn := r.drawn, hwLine := r.hwLine, idle := r.idle) && s.drawn <= r.drawn
    ensures r.idle == s.idle || r.idle == 0
    ensures s.variant == Legacy ==> r.idle == s.idle && r.hwLine == s.hwLine
    ensures s.screen != Main ==> r == s
  {
    if s.screen != Main then s
    else match ParseHwParams(s.card.hwParams)
      case Raised(_) => s
      case Returned(info) =>
        if s.variant == Packaged then
          var text := HwLineText(info);
          if s.hwLine != text then
            Draw(s.(idle := 0, hwLine := text), [Text(5, 5, "                  ", false), Text(5, 5, text, false)])
          else s
        else Draw(s, [Text(5, 5, LegacyHwLineText(info), false)])
  }

  function VolumeScreen(s: State): (r: State)
    ensures r == s.(screen := Main, drawn := r.drawn, hwLine := r.hwLine, idle := r.idle) && s.drawn <= r.drawn
    ensures r.idle == s.idle || r.idle == 0
    ensures s.variant == Legacy ==> r.idle == s.idle
  {
    HwLine(MuteLine(VolumeLine(CheckScreen(s, Main), None)))
  }

  function MenuScreen(s: State): (r: State)
    ensures r == s.(screen := Menu, drawn := r.drawn, hwLine := r.hwLine) && s.drawn <= r.drawn
  {
    Draw(CheckScreen(s, Menu), MenuDraws(s.mIndx, s.flags.hvEn, s.flags.filSp))
  }

  function FilterScreen(s: State): (r: State)
    ensures r == s.(screen := Filter, drawn := r.drawn, hwLine := r.hwLine) && s.drawn <= r.drawn
  {
    var f := s.flags;
    Draw(CheckScreen(s, Filter), FilterDraws(s.fIndx, f.phComp, f.hpFil, f.deEmp, f.nonOs))
  }

  /** hv_screen, sp_screen, hp_screen, de_screen, non_screen, ph_screen. */
  function DetailScreen(s: State, t: Toggle): (r: State)
    ensures r == s.(screen := ScreenOf(t), drawn := r.drawn, hwLine := r.hwLine) && s.drawn <= r.drawn
  {
    Draw(CheckScreen(s, ScreenOf(t)), DetailDraws(t, s.flags.Get(t), s.okFlag))
  }

  /** sw_left_callback: main, boot and menu go to the main screen, the
      filter menu to the main menu; on a detail screen the setting is turned
      on (and the screen redrawn) unless it already is. */
  function Left(s: State): (r: State)
    ensures r == s.(flags := r.flags, screen := r.screen, drawn := r.drawn, hwLine := r.hwLine, idle := r.idle)
    ensures r.screen == (if s.screen == Main || s.screen == Boot || s.screen == Menu then Main
                         else if s.screen == Filter then Menu else s.screen)
    ensures r.idle == s.idle || r.idle == 0
    ensures !IsDetail(s.screen) ==> r.flags == s.flags
    ensures IsDetail(s.screen) ==> r.flags == s.flags.Set(ToggleOn(s.screen).value, true) && r.idle == s.idle
    ensures IsDetail(s.screen) && s.flags.Get(ToggleOn(s.screen).value) ==> r == s
    ensures s.drawn <= r.drawn
  {
    if s.screen == Main || s.screen == Boot || s.screen == Menu then VolumeScreen(s)
    else if s.screen == Filter then MenuScreen(s)
    else match ToggleOn(s.screen)
      case Some(t) => if !s.flags.Get(t) then DetailScreen(s.(flags := s.flags.Set(t, true)), t) else s
      case None => s
  }

  /** sw_right_callback: main and boot go to the menu, the menu to the main
      screen; on a detail screen the setting is turned off and the screen
      redrawn; on the filter menu nothing happens. */
  function Right(s: State): (r: State)
    ensures r == s.(flags := r.flags, screen := r.screen, drawn := r.drawn, hwLine := r.hwLine, idle := r.idle)
    ensures r.screen == (if s.screen == Main || s.screen == Boot then Menu
                         else if s.screen == Menu then Main else s.screen)
    ensures r.idle == s.idle || r.idle == 0
    ensures !IsDetail(s.screen) ==> r.flags == s.flags
    ensures IsDetail(s.screen) ==> r.flags == s.flags.Set(ToggleOn(s.screen).value, false) && r.idle == s.idle
    ensures s.screen == Filter ==> r == s
    ensures s.drawn <= r.drawn
  {
    if s.screen == Main || s.screen == Boot then MenuScreen(s)
    else if s.screen == Menu then VolumeScreen(s)
    else match ToggleOn(s.screen)
      case Some(t) => DetailScreen(s.(flags := s.flags.Set(t, false)), t)
      case None => s
  }

  /** sw_up_callback: on the main or filter menu the cursor moves up one
      line but not past the first; elsewhere nothing happens. */
  function Up(s: State): (r: State)
    ensures r == s.(mIndx := r.mIndx, fIndx := r.fIndx, drawn := r.drawn, hwLine := r.hwLine)
    ensures s.screen != Menu ==> r.mIndx == s.mIndx
    ensures s.screen != Filter ==> r.fIndx == s.fIndx
    ensures s.screen == Menu ==> r.mIndx == (if s.mIndx > 1 then s.mIndx - 1 else s.mIndx)
    ensures s.screen == Filter ==> r.fIndx == (if s.fIndx > 1 then s.fIndx - 1 else s.fIndx)
    ensures s.screen != Menu && s.screen != Filter ==> r == s
    ensures s.drawn <= r.drawn
  {
    if s.screen == Menu then MenuScreen(s.(mIndx := if s.mIndx > 1 then s.mIndx - 1 else s.mIndx))
    else if s.screen == Filter then FilterScreen(s.(fIndx := if s.fIndx > 1 then s.fIndx - 1 else s.fIndx))
    else s
  }

  function WrapDown(i: int): (j: int)
    ensures i < 4 ==> j == i + 1
    ensures i >= 4 ==> j == 1
  {
    if i + 1 > 4 then 1 else i + 1
  }

  /** The OK box after Down on a detail screen: the packaged program clears
      it, the legacy program sets it. */
  function DownOk(v: Variant): bool { v == Legacy }

  /** sw_down_callback: on the main or filter menu the cursor moves down one
      line and wraps from the last to the first; on a detail screen the OK
      box is set or cleared and the screen redrawn. */
  function Down(s: State): (r: State)
    ensures r == s.(mIndx := r.mIndx, fIndx := r.fIndx, okFlag := r.okFlag, drawn := r.drawn, hwLine := r.hwLine)
    ensures s.screen != Menu ==> r.mIndx == s.mIndx
    ensures s.screen != Filter ==> r.fIndx == s.fIndx
    ensures s.screen == Menu ==> r.mIndx == WrapDown(s.mIndx)
    ensures s.screen == Filter ==> r.fIndx == WrapDown(s.fIndx)
    ensures IsDetail(s.screen) ==> r.okFlag == DownOk(s.variant)
    ensures !IsDetail(s.screen) ==> r.okFlag == s.okFlag
    ensures s.screen == Main || s.screen == Boot ==> r == s
    ensures s.drawn <= r.drawn
  {
    if s.screen == Menu then MenuScreen(s.(mIndx := WrapDown(s.mIndx)))
    else if s.screen == Filter then FilterScreen(s.(fIndx := WrapDown(s.fIndx)))
    else match ToggleOn(s.screen)
      case Some(t) => DetailScreen(s.(okFlag := DownOk(s.variant)), t)
      case None => s
  }

  /** The OK box after a commit: set by the packaged program, cleared by the
      legacy one. */
  function CommitOk(v: Variant): bool { v == Packaged }

  /** The write a commit of `t` sends when the card disagrees with the
      display: the switch is flipped, the speed is set to the displayed one. */
  function CommitWrite(f: Flags, t: Toggle): HwWrite {
    if t == FilterSpeed then WriteSpeed(f.filSp) else ToggleSwitch(ControlOf(t))
  }

  /** The hardware part of the Ok branch of a detail screen: the value on the
      card is compared with the displayed one, and one write is sent when they
      differ. The packaged program toggles the speed it reads back; the
      legacy one records the card's speed in filter_cur and, when it
      differs, sets filter_mod to the displayed speed and writes that. */
  function CommitHardware(s: State, t: Toggle): (r: State)
    ensures
      var differs := Live(s.card, t) != s.flags.Get(t);
      && r == s.(card := r.card, writes := r.writes, filterCur := r.filterCur, filterMod := r.filterMod)
      && r.card == (if differs then s.card.Apply(CommitWrite(s.flags, t)) else s.card)
      && r.writes == s.writes + (if differs then [CommitWrite(s.flags, t)] else [])
      && Live(r.card, t) == s.flags.Get(t)
      && (s.variant == Packaged || t != FilterSpeed ==> r.filterCur == s.filterCur && r.filterMod == s.filterMod)
      && (s.variant == Legacy && t == FilterSpeed ==>
            r.filterCur == s.card.fast && r.filterMod == (if differs then s.flags.filSp else s.filterMod))
  {
    if t == FilterSpeed then
      if s.variant == Packaged then
        (if s.card.fast != s.flags.filSp then Write(s, WriteSpeed(!s.card.fast)) else s)
      else
        var s1 := s.(filterCur := s.card.fast);
        if s.card.fast != s.flags.filSp then Write(s1.(filterMod := s.flags.filSp), WriteSpeed(s.flags.filSp))
        else s1
    else if Live(s.card, t) != s.flags.Get(t) then Write(s, ToggleSwitch(ControlOf(t)))
    else s
  }

  /** The Ok branch of a detail screen: the OK box is set (packaged) or
      cleared (legacy), the card is brought to the displayed value, and the
      display goes back to the menu the screen was entered from. */
  function Commit(s: State, t: Toggle): (r: State)
    ensures
      var differs := Live(s.card, t) != s.flags.Get(t);
      && r == s.(okFlag := r.okFlag, card := r.card, writes := r.writes, filterCur := r.filterCur,
                 filterMod := r.filterMod, screen := r.screen, drawn := r.drawn, hwLine := r.hwLine)
      && r.okFlag == CommitOk(s.variant)
      && r.card == (if differs then s.card.Apply(CommitWrite(s.flags, t)) else s.card)
      && r.writes == s.writes + (if differs then [CommitWrite(s.flags, t)] else [])
      && Live(r.card, t) == s.flags.Get(t)
      && r.screen == (if t == HvEnable || t == FilterSpeed then Menu else Filter)
      && (s.variant == Packaged ==> r.filterCur == s.filterCur && r.filterMod == s.filterMod)
      && (s.variant == Legacy && t == FilterSpeed ==>
            r.filterCur == s.card.fast && r.filterMod == (if differs then s.flags.filSp else s.filterMod))
      && (s.variant == Legacy && t != FilterSpeed ==> r.filterCur == s.filterCur && r.filterMod == s.filterMod)
      && s.drawn <= r.drawn
  {
    var s2 := CommitHardware(s.(okFlag := CommitOk(s.variant)), t);
    if t == HvEnable || t == FilterSpeed then MenuScreen(s2) else FilterScreen(s2)
  }

  /** The Ok branch of the main menu: SYSINFO, HV, FILTER, SPEED. */
  function OpenFromMenu(s: State): (r: State)
    ensures r == s.(screen := r.screen, drawn := r.drawn, hwLine := r.hwLine)
    ensures 1 <= s.mIndx <= 4 ==> r.screen == [Boot, Hv, Filter, Sp][s.mIndx - 1]
    ensures s.drawn <= r.drawn
  {
    if s.mIndx == 1 then BootScreen(s)
    else if s.mIndx == 2 then DetailScreen(s, HvEnable)
    else if s.mIndx == 3 then FilterScreen(s)
    else if s.mIndx == 4 then DetailScreen(s, FilterSpeed)
    else s
  }

  /** The Ok branch of the filter menu: PHCOMP, HP-FIL, DE-EMP, NON-OS; the
      DE-EMP screen is on the HP screen, the member SCREEN.DE aliases. */
  function OpenFromFilter(s: State): (r: State)
    ensures r == s.(screen := r.screen, drawn := r.drawn, hwLine := r.hwLine)
    ensures 1 <= s.fIndx <= 4 ==> r.screen == [Ph, Hp, Hp, Non][s.fIndx - 1]
    ensures s.drawn <= r.drawn
  {
    if s.fIndx == 1 then DetailScreen(s, PhaseComp)
    else if s.fIndx == 2 then DetailScreen(s, HighPass)
    else if s.fIndx == 3 then DetailScreen(s, DeEmphasis)
    else if s.fIndx == 4 then DetailScreen(s, NonOversample)
    else s
  }

  /** sw_ok_callback: on the menus Ok opens the line under the cursor, on the
      boot screen it returns to the menu, on a detail screen it commits, and
      on the main screen it does nothing. Opening a screen writes nothing. */
  function OkPress(s: State): (r: State)
    ensures !IsDetail(s.screen) ==> r == s.(screen := r.screen, drawn := r.drawn, hwLine := r.hwLine)
    ensures s.screen == Main ==> r == s
    ensures s.screen == Boot ==> r.screen == Menu
    ensures s.screen == Menu && 1 <= s.mIndx <= 4 ==> r.screen == [Boot, Hv, Filter, Sp][s.mIndx - 1]
    ensures s.screen == Filter && 1 <= s.fIndx <= 4 ==> r.screen == [Ph, Hp, Hp, Non][s.fIndx - 1]
    ensures IsDetail(s.screen) ==> r == Commit(s, ToggleOn(s.screen).value)
    ensures s.drawn <= r.drawn
  {
    if s.screen == Menu then OpenFromMenu(s)
    else if s.screen == Boot then MenuScreen(s)
    else if s.screen == Filter then OpenFromFilter(s)
    else match ToggleOn(s.screen)
      case Some(t) => Commit(s, t)
      case None => s
  }

  function Dispatch(s: State, b: Button): State {
    match b
    case Left => Left(s)
    case Ok => OkPress(s)
    case Up => Up(s)
    case Down => Down(s)
    case Right => Right(s)
  }

  /** button_callback: any press resets the idle counter, then the button's
      callback runs. */
  function Press(s: State, b: Button): State {
    Dispatch(s.(idle := 0), b)
  }

  /** button_callback for the pin a press came from. */
  function PressPin(s: State, n: int): State {
    match ButtonOfPin(n)
    case Some(b) => Press(s, b)
    case None => s.(idle := 0)
  }

  /** The test at the head of the idle loop of main: power the panel down
      once the counter reaches the threshold, up when it is 1. */
  function IdleCheck(s: State): State {
    if s.idle >= IdleThreshold(s.variant) then Draw(s, [PowerDown])
    else if s.idle == 1 then Draw(s, [PowerUp])
    else s
  }

  /** One second of the idle loop of main, from the sleep on: the counter is
      incremented and the loop's test runs again. The first test runs in
      Startup, so a press during the sleep lands between two ticks. */
  function IdleTick(s: State): State {
    IdleCheck(s.(idle := s.idle + 1))
  }

  /** The state after OLED() (packaged: the settings are read from the card
      in the constructor). */
  function Init(v: Variant, card: Card): State {
    match v
    case Packaged => State(Packaged, Main, 1, 1, LiveFlags(card), false, "", 0, card.fast, false, card, [], [PowerUp, Clear])
    case Legacy => State(Legacy, Main, 1, 1, Flags(false, false, false, false, false, false), false, "", 0, false, false, card, [], [PowerUp, Clear])
  }

  /** main up to the first sleep of its idle loop: boot screen, then the
      volume screen, then the loop's first test; the legacy program starts
      the counter at 1 and reads the settings from the card only after
      drawing the volume screen. */
  function Startup(v: Variant, card: Card): State {
    match v
    case Packaged => IdleCheck(VolumeScreen(BootScreen(Init(Packaged, card))))
    case Legacy =>
      var s := VolumeScreen(BootScreen(Init(Legacy, card).(idle := 1)));
      IdleCheck(s.(flags := LiveFlags(card), filterCur := card.fast))
  }

  /** What can happen between two states: a button press on a pin, a second
      of the idle loop, a run of the stream-line poller. */
  datatype Input = Pin(n: int) | Tick | Poll

  function Step(s: State, i: Input): State {
    match i
    case Pin(n) => PressPin(s, n)
    case Tick => IdleTick(s)
    case Poll => HwLine(s)
  }

  function Run(s: State, inputs: seq<Input>): State
    decreases |inputs|
  {
    if inputs == [] then s else Run(Step(s, inputs[0]), inputs[1..])
  }
}
