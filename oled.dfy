/** The OLED object of the packaged program (the module globals of the
    legacy one) as a class whose callbacks update its fields in place and
    drive a SoundCtrl. Each method leaves the object in the state the Menu
    function of the same name gives for the state before it. */
module Oled {
  import opened PyText
  import opened Screens
  import opened Alsa
  import opened Stream
  import opened Menu
  import Spec = Menu
  import opened MenuLaws
  import opened Remote

  class Oled {
    const variant: Variant
    const snd: SoundCtrl
    var screen: Screen
    var mIndx: int
    var fIndx: int
    var flags: Flags
    var okFlag: bool
    var hwLine: string
    var idle: int
    var filterCur: bool
    var filterMod: bool
    var drawn: seq<DisplayOp>

    /** The object and its sound card as a Menu state. */
    function State(): State
      reads this, snd
    {
      Spec.State(variant, screen, mIndx, fIndx, flags, okFlag, hwLine, idle, filterCur, filterMod,
                 snd.Snapshot(), snd.writes, drawn)
    }

    /** OLED(card_num, snd_ctrl); the legacy program's globals start the
        same way, with all settings off. */
    constructor (v: Variant, sc: SoundCtrl)
      ensures snd == sc && State() == Init(v, sc.Snapshot()).(writes := sc.writes)
    {
      variant, snd := v, sc;
      screen, mIndx, fIndx := Main, 1, 1;
      flags := if v == Packaged then LiveFlags(sc.Snapshot()) else Flags(false, false, false, false, false, false);
      okFlag, hwLine, idle := false, "", 0;
      filterCur, filterMod := if v == Packaged then sc.fast else false, false;
      drawn := [PowerUp, Clear];
    }

    method Show(ops: seq<DisplayOp>)
      modifies this
      ensures State() == Draw(old(State()), ops)
    {
      drawn := drawn + ops;
    }

    method CheckScreen(scr: Screen)
      modifies this
      ensures State() == Spec.CheckScreen(old(State()), scr)
    {
      if screen != scr {
        drawn := drawn + [Clear];
        if variant == Packaged {
          hwLine := "";
        }
      }
      screen := scr;
    }

    method BootScreen()
      modifies this
      ensures State() == Spec.BootScreen(old(State()))
    {
      CheckScreen(Boot);
      Show([Clear, BootInfo]);
    }

    method VolumeLine(volume: Option<int>)
      modifies this
      ensures State() == Spec.VolumeLine(old(State()), volume)
    {
      if screen == Main {
        var level: int;
        if volume.Some? {
          level := volume.value;
        } else {
          level := snd.GetVolume();
        }
        if variant == Packaged {
          Show([Text(1, 2, "     ", false), VolumeInfo(level)]);
        } else {
          Show([Text(1, 10, "              ", false), VolumeInfo(level)]);
        }
      }
    }

    method MuteLine()
      modifies this
      ensures State() == Spec.MuteLine(old(State()))
    {
      if screen == Main {
        var on := snd.GetMuteStatus(MasterCtl);
        Show([Text(3, 50, if on then "  " else "@", false)]);
      }
    }

    /** hw_line: read the hw_params lines and redraw the stream line. */
    method HwLine()
      modifies this
      ensures State() == Spec.HwLine(old(State()))
    {
      if screen == Main {
        var parsed := ScanHwParams(snd.hwParams);
        if parsed.Returned? {
          if variant == Packaged {
            var text := HwLineText(parsed.value);
            if hwLine != text {
              idle := 0;
              hwLine := text;
              Show([Text(5, 5, "                  ", false), Text(5, 5, text, false)]);
            }
          } else {
            Show([Text(5, 5, LegacyHwLineText(parsed.value), false)]);
          }
        }
      }
    }

    method VolumeScreen()
      modifies this
      ensures State() == Spec.VolumeScreen(old(State()))
    {
      CheckScreen(Main);
      VolumeLine(None);
      MuteLine();
      HwLine();
    }

    method MenuScreen()
      modifies this
      ensures State() == Spec.MenuScreen(old(State()))
    {
      CheckScreen(Menu);
      Show(MenuDraws(mIndx, flags.hvEn, flags.filSp));
    }

    method FilterScreen()
      modifies this
      ensures State() == Spec.FilterScreen(old(State()))
    {
      CheckScreen(Filter);
      Show(FilterDraws(fIndx, flags.phComp, flags.hpFil, flags.deEmp, flags.nonOs));
    }

    method DetailScreen(t: Toggle)
      modifies this
      ensures State() == Spec.DetailScreen(old(State()), t)
    {
      CheckScreen(ScreenOf(t));
      Show(DetailDraws(t, flags.Get(t), okFlag));
    }

    method SwLeftCallback()
      modifies this
      ensures State() == Spec.Left(old(State()))
    {
      if screen == Main || screen == Boot || screen == Menu {
        VolumeScreen();
      } else if screen == Filter {
        MenuScreen();
      } else if ToggleOn(screen).Some? {
        var t := ToggleOn(screen).value;
        if !flags.Get(t) {
          flags := flags.Set(t, true);
          DetailScreen(t);
        }
      }
    }

    method SwRightCallback()
      modifies this
      ensures State() == Spec.Right(old(State()))
    {
      if screen == Main || screen == Boot {
        MenuScreen();
      } else if screen == Menu {
        VolumeScreen();
      } else if ToggleOn(screen).Some? {
        var t := ToggleOn(screen).value;
        flags := flags.Set(t, false);
        DetailScreen(t);
      }
    }

    method SwUpCallback()
      modifies this
      ensures State() == Spec.Up(old(State()))
    {
      if screen == Menu {
        if mIndx > 1 {
          mIndx := mIndx - 1;
        }
        MenuScreen();
      } else if screen == Filter {
        if fIndx > 1 {
          fIndx := fIndx - 1;
        }
        FilterScreen();
      }
    }

    method SwDownCallback()
      modifies this
      ensures State() == Spec.Down(old(State()))
    {
      ghost var s0 := State();
      if screen == Menu {
        mIndx := mIndx + 1;
        if mIndx > 4 {
          mIndx := 1;
        }
        assert State() == s0.(mIndx := WrapDown(s0.mIndx));
        MenuScreen();
      } else if screen == Filter {
        fIndx := fIndx + 1;
        if fIndx > 4 {
          fIndx := 1;
        }
        assert State() == s0.(fIndx := WrapDown(s0.fIndx));
        FilterScreen();
      } else if ToggleOn(screen).Some? {
        okFlag := DownOk(variant);
        assert State() == s0.(okFlag := DownOk(s0.variant));
        DetailScreen(ToggleOn(screen).value);
      }
    }

    /** The hardware part of a commit of the filter speed. */
    method CommitSpeed()
      modifies this, snd
      ensures State() == CommitHardware(old(State()), FilterSpeed)
    {
      var cur := snd.GetFilterStatus();
      if variant == Packaged {
        if cur != flags.filSp {
          snd.ChangeFilterStatus();
        }
      } else {
        filterCur := cur;
        if filterCur != flags.filSp {
          filterMod := flags.filSp;
          snd.SetFilterStatus(filterMod);
        }
      }
    }

    /** The hardware part of a commit of a switch. */
    method CommitSwitch(t: Toggle)
      requires t != FilterSpeed
      modifies snd
      ensures State() == CommitHardware(old(State()), t)
    {
      var on := snd.GetMuteStatus(ControlOf(t));
      if on != flags.Get(t) {
        snd.ChangeMuteStatus(ControlOf(t));
      }
    }

    /** The Ok branch of a detail screen. */
    method Commit(t: Toggle)
      modifies this, snd
      ensures State() == Spec.Commit(old(State()), t)
    {
      okFlag := CommitOk(variant);
      if t == FilterSpeed {
        CommitSpeed();
      } else {
        CommitSwitch(t);
      }
      if t == HvEnable || t == FilterSpeed {
        MenuScreen();
      } else {
        FilterScreen();
      }
    }

    method SwOkCallback()
      modifies this, snd
      ensures State() == OkPress(old(State()))
    {
      if screen == Menu {
        if mIndx == 1 {
          BootScreen();
        } else if mIndx == 2 {
          DetailScreen(HvEnable);
        } else if mIndx == 3 {
          FilterScreen();
        } else if mIndx == 4 {
          DetailScreen(FilterSpeed);
        }
      } else if screen == Boot {
        MenuScreen();
      } else if screen == Filter {
        if fIndx == 1 {
          DetailScreen(PhaseComp);
        } else if fIndx == 2 {
          DetailScreen(HighPass);
        } else if fIndx == 3 {
          DetailScreen(DeEmphasis);
        } else if fIndx == 4 {
          DetailScreen(NonOversample);
        }
      } else if ToggleOn(screen).Some? {
        Commit(ToggleOn(screen).value);
      }
    }

    /** button_callback for a press on pin `n`. */
    method ButtonCallback(n: int)
      modifies this, snd
      ensures State() == PressPin(old(State()), n)
    {
      idle := 0;
      var b := ButtonOfPin(n);
      if b == Some(Down) {
        SwDownCallback();
      } else if b == Some(Up) {
        SwUpCallback();
      } else if b == Some(Ok) {
        SwOkCallback();
      } else if b == Some(Left) {
        SwLeftCallback();
      } else if b == Some(Right) {
        SwRightCallback();
      }
    }

    /** main up to its idle loop: the boot screen, then the volume screen;
        the legacy program starts the idle counter at 1 and reads the
        settings from the card after drawing the volume screen. */
    method Start()
      requires State() == Init(variant, snd.Snapshot())
      modifies this, snd
      ensures State() == Startup(variant, old(snd.Snapshot()))
    {
      ghost var card := snd.Snapshot();
      if variant == Legacy {
        idle := 1;
        assert State() == Init(Legacy, card).(idle := 1);
      }
      BootScreen();
      VolumeScreen();
      if variant == Legacy {
        assert State().card == card;
        ReadSettings();
      }
      IdleCheck();
    }

    /** The legacy main reads the five switches and the filter speed from
        the card into its globals. */
    method ReadSettings()
      modifies this
      ensures State() == old(State()).(flags := LiveFlags(snd.Snapshot()), filterCur := snd.fast)
    {
      var hp := snd.GetMuteStatus(HighPassCtl);
      var hv := snd.GetMuteStatus(HvCtl);
      var non := snd.GetMuteStatus(NonOversampleCtl);
      var ph := snd.GetMuteStatus(PhaseCompCtl);
      var de := snd.GetMuteStatus(DeEmphasisCtl);
      filterCur := snd.GetFilterStatus();
      flags := Flags(hv, filterCur, hp, de, non, ph);
    }

    /** The test at the head of the loop at the end of main. */
    method IdleCheck()
      modifies this
      ensures State() == Spec.IdleCheck(old(State()))
    {
      if idle >= IdleThreshold(variant) {
        Show([PowerDown]);
      } else if idle == 1 {
        Show([PowerUp]);
      }
    }

    /** One second of the loop at the end of main: after the sleep, the
        counter is incremented and the test runs again. */
    method IdleTick()
      modifies this
      ensures State() == Spec.IdleTick(old(State()))
    {
      idle := idle + 1;
      IdleCheck();
    }

    /** `n` passes of the loop at the end of main. */
    method IdleLoop(n: nat)
      modifies this
      ensures State() == Run(old(State()), Ticks(n))
    {
      var i := 0;
      while i < n
        invariant 0 <= i <= n
        invariant State() == Run(old(State()), Ticks(i))
      {
        IdleTick();
        RunAppend(old(State()), Ticks(i), [Tick]);
        assert Ticks(i) + [Tick] == Ticks(i + 1);
        i := i + 1;
      }
    }

    /** One event of remote_callback. */
    method HandleKey(e: KeyEvent, currVol: int) returns (vol: int, sent: seq<PlayerCmd>)
      modifies this, snd
      ensures var r := Handle(RemoteState(old(State()), currVol, []), e);
        State() == r.lcd && vol == r.currVol && sent == r.player
    {
      vol, sent := currVol, [];
      if !Accepted(e) {
        return;
      }
      if e.code == KeyRight {
        sent := [NextSong];
      } else if e.code == KeyLeft {
        sent := [PreviousSong];
      } else if e.code == KeyMute {
        snd.ChangeMuteStatus(MasterCtl);
        snd.ChangeMuteStatus(DigitalCtl);
        MuteLine();
      } else if e.code == KeyPlay {
        sent := [Pause];
      } else if e.code == KeyOk {
      } else if e.code == KeyVolumeUp || e.code == KeyVolumeDown {
        var start := vol;
        if variant == Legacy {
          start := snd.GetVolume();
        }
        var level := VolumeStep(variant, e.code == KeyVolumeUp, start);
        if variant == Packaged {
          vol := level;
        }
        snd.SetVolume(DigitalCtl, level);
        snd.SetVolume(MasterCtl, level);
        VolumeLine(Some(level));
      }
      idle := 0;
    }

    /** remote_callback over the events read from the remote: the
        packaged program remembers the volume it set across events. */
    method RemoteLoop(events: seq<KeyEvent>) returns (sent: seq<PlayerCmd>)
      modifies this, snd
      ensures var r := RemoteRun(StartRemote(old(State())), events);
        State() == r.lcd && sent == r.player
    {
      var vol := snd.GetVolume();
      sent := [];
      var i := 0;
      while i < |events|
        invariant 0 <= i <= |events|
        invariant RemoteRun(StartRemote(old(State())), events) == RemoteRun(RemoteState(State(), vol, sent), events[i..])
      {
        ghost var r0 := RemoteState(State(), vol, sent);
        var v', cmds := HandleKey(events[i], vol);
        HandleAppends(r0, events[i]);
        vol := v';
        sent := sent + cmds;
        assert events[i..][1..] == events[i + 1..];
        i := i + 1;
      }
    }
  }

  /** Handle appends the commands of one event to what was sent before. */
  lemma HandleAppends(r: RemoteState, e: KeyEvent)
    ensures Handle(r, e) == Handle(r.(player := []), e).(player := r.player + Handle(r.(player := []), e).player)
  {
  }
}
