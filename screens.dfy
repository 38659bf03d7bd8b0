/** The screens of the settings display, the five front-panel buttons, and
    what each screen draws on the SH1106 panel (as a log of drawing calls). */
module Screens {
  import opened PyText

  /** The definitions of the SCREEN enumeration, in declaration order:
      (name, value). HP and DE share the value 6. */
  const ScreenDefs: seq<(string, int)> :=
    [("MAIN", 0), ("BOOT", 1), ("MENU", 2), ("FILTER", 3), ("HV", 4),
     ("SP", 5), ("HP", 6), ("DE", 6), ("NON", 8), ("PH", 9)]

  /** The distinct members of SCREEN. Python's Enum turns a definition whose
      value repeats an earlier one into an alias of the earlier member, so
      there are nine members and `SCREEN.DE` is `SCREEN.HP`. */
  datatype Screen = Main | Boot | Menu | Filter | Hv | Sp | Hp | Non | Ph {
    function Value(): int {
      match this
      case Main => 0
      case Boot => 1
      case Menu => 2
      case Filter => 3
      case Hv => 4
      case Sp => 5
      case Hp => 6
      case Non => 8
      case Ph => 9
    }
  }

  /** Index of the first definition in `defs[from..]` named `name`. */
  function DefIndex(defs: seq<(string, int)>, name: string, from: nat): (i: int)
    requires from <= |defs|
    ensures i == -1 || (from <= i < |defs| && defs[i].0 == name)
    ensures i == -1 <==> forall j :: from <= j < |defs| ==> defs[j].0 != name
    decreases |defs| - from
  {
    if from == |defs| then -1
    else if defs[from].0 == name then from
    else DefIndex(defs, name, from + 1)
  }

  /** The member for a value: `SCREEN(v)`, the first definition with that value. */
  function ScreenOfValue(v: int): (r: Option<Screen>)
    ensures r.Some? ==> r.value.Value() == v
    ensures r.None? <==> forall m: Screen :: m.Value() != v
  {
    if v == 0 then Some(Main) else if v == 1 then Some(Boot)
    else if v == 2 then Some(Menu) else if v == 3 then Some(Filter)
    else if v == 4 then Some(Hv) else if v == 5 then Some(Sp)
    else if v == 6 then Some(Hp) else if v == 8 then Some(Non)
    else if v == 9 then Some(Ph) else None
  }

  /** The member that the attribute `SCREEN.<name>` denotes. */
  function Member(name: string): Option<Screen> {
    var i := DefIndex(ScreenDefs, name, 0);
    if i == -1 then None else ScreenOfValue(ScreenDefs[i].1)
  }

  /** Every definition denotes a member, the values of the members are
      distinct, and `SCREEN.DE` is the same member as `SCREEN.HP`. */
  lemma DeAliasesHp()
    ensures forall d | d in ScreenDefs :: ScreenOfValue(d.1).Some?
    ensures forall a: Screen, b: Screen :: a.Value() == b.Value() ==> a == b
    ensures Member("HP") == Some(Hp) && Member("DE") == Some(Hp)
  {
    assert DefIndex(ScreenDefs, "HP", 6) == 6;
    assert DefIndex(ScreenDefs, "HP", 3) == 6;
    assert DefIndex(ScreenDefs, "HP", 0) == 6;
    assert DefIndex(ScreenDefs, "DE", 7) == 7;
    assert DefIndex(ScreenDefs, "DE", 4) == 7;
    assert DefIndex(ScreenDefs, "DE", 0) == 7;
  }

  /** The six settings a detail screen edits. */
  datatype Toggle = HvEnable | FilterSpeed | HighPass | DeEmphasis | NonOversample | PhaseComp

  /** The screen the detail screen of a toggle is on (`_check_screen` argument
      of hv_screen, sp_screen, ...): `de_screen` uses SCREEN.DE, that is Hp. */
  function ScreenOf(t: Toggle): (s: Screen)
    ensures t == DeEmphasis ==> Some(s) == Member("DE")
  {
    DeAliasesHp();
    match t
    case HvEnable => Hv
    case FilterSpeed => Sp
    case HighPass => Hp
    case DeEmphasis => Hp
    case NonOversample => Non
    case PhaseComp => Ph
  }

  /** The toggle that the Left, Right, Down and Ok branches act on when the
      display is on screen `s`: the `SCREEN.HP` branch precedes the
      `SCREEN.DE` one, so on Hp it is always the high-pass filter. */
  function ToggleOn(s: Screen): (t: Option<Toggle>)
    ensures t != Some(DeEmphasis)
    ensures t.Some? ==> ScreenOf(t.value) == s
  {
    match s
    case Hv => Some(HvEnable)
    case Sp => Some(FilterSpeed)
    case Hp => Some(HighPass)
    case Non => Some(NonOversample)
    case Ph => Some(PhaseComp)
    case _ => None
  }

  predicate IsDetail(s: Screen) { ToggleOn(s).Some? }

  /** The five buttons and their BCM pin numbers. */
  datatype Button = Left | Ok | Up | Down | Right

  function PinOf(b: Button): int {
    match b
    case Left => 14
    case Ok => 15
    case Up => 23
    case Down => 8
    case Right => 24
  }

  /** `SW_PIN(n)`: the button wired to pin `n`, if any. */
  function ButtonOfPin(n: int): (r: Option<Button>)
    ensures r.Some? ==> PinOf(r.value) == n
    ensures r.None? ==> forall b: Button :: PinOf(b) != n
  {
    if n == 14 then Some(Left) else if n == 15 then Some(Ok)
    else if n == 23 then Some(Up) else if n == 8 then Some(Down)
    else if n == 24 then Some(Right) else None
  }

  /** The pins for which a gpiozero Button with `button_callback` is created
      by the legacy program: Left, Right, Up and Down, but not Ok. */
  const LegacyWiredPinsAsWritten: seq<int> := [14, 24, 23, 8]

  /** The pins wired by the packaged program (and by the legacy one once the
      missing Ok button is added): all five. */
  const WiredPins: seq<int> := [14, 24, 23, 8, 15]

  /** As written, no wired pin of the legacy program dispatches to Ok, so its
      Ok callback, and with it every commit of a setting, is unreachable. */
  lemma LegacyOkNeverDispatched()
    ensures forall p | p in LegacyWiredPinsAsWritten :: ButtonOfPin(p).Some? && ButtonOfPin(p) != Some(Ok)
  {
  }

  /** With all five pins wired every button reaches `button_callback`. */
  lemma EveryButtonWired(b: Button)
    ensures PinOf(b) in WiredPins && ButtonOfPin(PinOf(b)) == Some(b)
  {
  }

  /** One drawing call on the SH1106 panel. `BootInfo` stands for the boot
      screen's host name and addresses, `VolumeInfo` for the volume text whose
      decibel rendering comes from ALSA. */
  datatype DisplayOp =
    | Clear
    | PowerUp
    | PowerDown
    | Text(row: int, col: int, text: string, inverted: bool)
    | BootInfo
    | VolumeInfo(level: int)

  /** The four lines of the main menu; the line of cursor `m` is inverted. */
  function MenuDraws(m: int, hvEn: bool, fast: bool): (ops: seq<DisplayOp>)
    ensures |ops| == 4
    ensures forall k :: 0 <= k < 4 ==> ops[k].Text? && ops[k].row == 2 * k && ops[k].col == 0
    ensures forall k :: 0 <= k < 4 ==> (ops[k].inverted <==> m == k + 1)
    ensures ops[1].text == (if hvEn then "HV-EN ON" else "HV-EN OFF")
    ensures ops[3].text == (if fast then "F-SPEED-FAS" else "F-SPEED-SLO")
  {
    [ Text(0, 0, "SYSINFO", m == 1),
      Text(2, 0, if hvEn then "HV-EN ON" else "HV-EN OFF", m == 2),
      Text(4, 0, "FILTER", m == 3),
      Text(6, 0, if fast then "F-SPEED-FAS" else "F-SPEED-SLO", m == 4) ]
  }

  /** The panel row of cell `k` of the filter menu (three cells per row). */
  function CellRow(k: int): int {
    if k < 3 then 0 else if k < 6 then 2 else if k < 9 then 4 else 6
  }

  function EnDis(on: bool): string { if on then "EN" else "DIS" }

  /** The filter menu: four rows of three cells; the row of cursor `f` is
      inverted, and each row shows EN or DIS for its setting. */
  function FilterDraws(f: int, ph: bool, hp: bool, de: bool, non: bool): (ops: seq<DisplayOp>)
    ensures |ops| == 12
    ensures forall k :: 0 <= k < 12 ==> ops[k].Text? && ops[k].row == CellRow(k)
    ensures forall k :: 0 <= k < 12 ==> (ops[k].inverted <==> 2 * f == CellRow(k) + 2)
    ensures ops[2].text == EnDis(ph) && ops[5].text == EnDis(hp)
    ensures ops[8].text == EnDis(de) && ops[11].text == EnDis(non)
  {
    var s1, s2, s3, s4 := f == 1, f == 2, f == 3, f == 4;
    [ Text(0, 5, "PHCOMP ", s1), Text(0, 64, "| ", s1), Text(0, 80, EnDis(ph), s1),
      Text(2, 5, "HP-FIL ", s2), Text(2, 64, "| ", s2), Text(2, 80, EnDis(hp), s2),
      Text(4, 5, "DE-EMP ", s3), Text(4, 64, "| ", s3), Text(4, 80, EnDis(de), s3),
      Text(6, 5, "NON-OS ", s4), Text(6, 64, "| ", s4), Text(6, 80, EnDis(non), s4) ]
  }

  /** Title, enabled label, disabled label of the detail screen of a toggle,
      with their columns. */
  function DetailTitle(t: Toggle): (string, int) {
    match t
    case HvEnable => ("HV ENABLE", 20)
    case FilterSpeed => ("FILTER SPEED", 5)
    case HighPass => ("HP-FILT", 20)
    case DeEmphasis => ("DE-EMPH", 20)
    case NonOversample => ("NON-OSAMP", 20)
    case PhaseComp => ("PHA-COMP", 20)
  }

  function DetailLabels(t: Toggle): (string, int, string, int) {
    match t
    case HvEnable => ("ON", 20, "OFF", 70)
    case FilterSpeed => ("FAST", 10, "SLOW", 80)
    case _ => ("EN", 10, "DIS", 70)
  }

  /** A detail screen: its title, the enabled/disabled pair with exactly the
      one matching `flag` inverted, and the OK box inverted iff `ok`. */
  function DetailDraws(t: Toggle, flag: bool, ok: bool): (ops: seq<DisplayOp>)
    ensures |ops| == 4 && forall k :: 0 <= k < 4 ==> ops[k].Text?
    ensures !ops[0].inverted && ops[0].row == 0
    ensures ops[1].row == 3 && ops[2].row == 3 && ops[1].inverted == flag && ops[2].inverted == !flag
    ensures ops[3] == Text(6, 50, "OK", ok)
  {
    var (title, tc) := DetailTitle(t);
    var (on, onc, off, offc) := DetailLabels(t);
    [Text(0, tc, title, false), Text(3, onc, on, flag), Text(3, offc, off, !flag), Text(6, 50, "OK", ok)]
  }
}
