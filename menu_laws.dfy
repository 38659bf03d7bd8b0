/** What the button callbacks, the stream-line poller and the idle loop
    promise, for both configurations of the menu. */
module MenuLaws {
  import opened PyText
  import opened Screens
  import opened Alsa
  import opened Stream
  import opened Menu
  import Spec = Menu

  /** A commit write changes the card only in the setting it is for. */
  lemma CommitWriteTouchesOnly(card: Card, f: Flags, t: Toggle)
    ensures
      var c := card.Apply(CommitWrite(f, t));
      && (forall u: Toggle :: u != t ==> Live(c, u) == Live(card, u))
      && c.sw.master == card.sw.master && c.sw.digital == card.sw.digital
      && c.masterVol == card.masterVol && c.digitalVol == card.digitalVol
      && c.hwParams == card.hwParams
  {
    var c := card.Apply(CommitWrite(f, t));
    if t != FilterSpeed {
      forall u: Toggle | u != t ensures Live(c, u) == Live(card, u) {
        if u != FilterSpeed {
          assert ControlOf(u) != ControlOf(t);
        }
      }
    }
  }

  /** Up stops at the first line, Down wraps from the fourth to the first,
      and no button takes a cursor out of [1, 4]. */
  lemma CursorRules(s: State)
    requires Valid(s)
    ensures s.screen == Menu ==>
      && Press(s, Up).mIndx == (if s.mIndx == 1 then 1 else s.mIndx - 1)
      && Press(s, Down).mIndx == (if s.mIndx == 4 then 1 else s.mIndx + 1)
      && Press(s, Up).fIndx == s.fIndx && Press(s, Down).fIndx == s.fIndx
    ensures s.screen == Filter ==>
      && Press(s, Up).fIndx == (if s.fIndx == 1 then 1 else s.fIndx - 1)
      && Press(s, Down).fIndx == (if s.fIndx == 4 then 1 else s.fIndx + 1)
      && Press(s, Up).mIndx == s.mIndx && Press(s, Down).mIndx == s.mIndx
    ensures forall b: Button :: Valid(Press(s, b))
  {
    forall b: Button ensures Valid(Press(s, b)) {
      CursorsKept(s, b);
    }
  }

  /** Only Up and Down move a cursor, and only on its own menu. */
  lemma CursorsKept(s: State, b: Button)
    requires Valid(s)
    ensures Valid(Press(s, b))
    ensures b != Up && b != Down ==> Press(s, b).mIndx == s.mIndx && Press(s, b).fIndx == s.fIndx
  {
  }

  /** Right: main and boot screens go to the menu, the menu to the main
      screen. Left: main, boot and menu go to the main screen, the filter
      menu to the main menu. Elsewhere the arrows keep the screen, and
      Right does nothing at all on the filter menu. */
  lemma Navigation(s: State)
    ensures (s.screen == Main || s.screen == Boot) ==> Press(s, Right).screen == Menu
    ensures s.screen == Menu ==> Press(s, Right).screen == Main
    ensures (s.screen == Main || s.screen == Boot || s.screen == Menu) ==> Press(s, Left).screen == Main
    ensures s.screen == Filter ==> Press(s, Left).screen == Menu
    ensures s.screen == Filter ==> Press(s, Right) == s.(idle := 0)
    ensures IsDetail(s.screen) ==> Press(s, Left).screen == s.screen && Press(s, Right).screen == s.screen
    ensures Press(s, Up).screen == s.screen && Press(s, Down).screen == s.screen
  {
  }

  /** Ok opens the line under the cursor: in the main menu SYSINFO, HV,
      FILTER, SPEED; in the filter menu PHCOMP, HP, DE (the HP screen, since
      DE aliases HP), NON-OS. On the boot screen it returns to the menu and on
      the main screen it does nothing. Opening a screen writes nothing and
      keeps the flags and the OK box. */
  lemma OkDispatch(s: State)
    requires Valid(s)
    ensures s.screen == Menu ==> Press(s, Ok).screen == [Boot, Hv, Filter, Sp][s.mIndx - 1]
    ensures s.screen == Filter ==>
      && Press(s, Ok).screen == [Ph, Hp, Hp, Non][s.fIndx - 1]
      && (s.fIndx == 3 ==> Some(Press(s, Ok).screen) == Member("DE"))
    ensures s.screen == Boot ==> Press(s, Ok).screen == Menu
    ensures s.screen == Main ==> Press(s, Ok) == s.(idle := 0)
    ensures !IsDetail(s.screen) ==>
      var r := Press(s, Ok);
      r.writes == s.writes && r.card == s.card && r.flags == s.flags && r.okFlag == s.okFlag
  {
    var s0 := s.(idle := 0);
    assert Press(s, Ok) == OkPress(s0);
    if s.screen == Filter && s.fIndx == 3 {
      DeAliasesHp();
    }
  }

  /** Ok on a detail screen: the OK box is set (packaged) or cleared
      (legacy); exactly one write goes to the card when the card disagrees
      with the displayed value, none otherwise; afterwards the card holds the
      displayed value and nothing else on it changed; HV and SPEED return to
      the main menu, the filter settings to the filter menu. */
  lemma CommitRule(s: State)
    requires IsDetail(s.screen)
    ensures
      var t := ToggleOn(s.screen).value;
      var r := Press(s, Ok);
      var differs := Live(s.card, t) != s.flags.Get(t);
      && t != DeEmphasis
      && r.okFlag == (s.variant == Packaged)
      && r.writes == s.writes + (if differs then [CommitWrite(s.flags, t)] else [])
      && Live(r.card, t) == s.flags.Get(t)
      && (forall u: Toggle :: u != t ==> Live(r.card, u) == Live(s.card, u))
      && r.card.sw.master == s.card.sw.master && r.card.sw.digital == s.card.sw.digital
      && r.card.masterVol == s.card.masterVol && r.card.digitalVol == s.card.digitalVol
      && r.flags == s.flags && r.mIndx == s.mIndx && r.fIndx == s.fIndx
      && r.screen == (if t == HvEnable || t == FilterSpeed then Menu else Filter)
  {
    var t := ToggleOn(s.screen).value;
    CommitWriteTouchesOnly(s.card, s.flags, t);
  }

  /** Both programs write the displayed speed: the packaged one by toggling
      the speed it reads back, the legacy one by setting filter_mod, which
      then holds the displayed speed, while filter_cur holds the card's. */
  lemma SpeedCommit(s: State)
    requires s.screen == Sp
    ensures
      var r := Press(s, Ok);
      var differs := s.card.fast != s.flags.filSp;
      && r.writes == s.writes + (if differs then [WriteSpeed(s.flags.filSp)] else [])
      && r.card.fast == s.flags.filSp
      && (s.variant == Legacy ==>
            r.filterCur == s.card.fast && r.filterMod == (if differs then s.flags.filSp else s.filterMod))
  {
  }

  /** Two states equal in everything but the log of drawing calls. */
  predicate SameButDrawn(a: State, b: State) {
    a == b.(drawn := a.drawn)
  }

  /** On a detail screen Left sets the screen's flag, changing no other
      flag, cursor, screen or anything on the card, and a second Left changes
      nothing at all (it draws nothing either). */
  lemma DetailLeft(s: State)
    requires IsDetail(s.screen)
    ensures
      var t := ToggleOn(s.screen).value;
      var l := Press(s, Left);
      && l == s.(idle := 0, flags := s.flags.Set(t, true), drawn := l.drawn)
      && Press(l, Left) == l
  {
    var t := ToggleOn(s.screen).value;
    var l := Press(s, Left);
    assert l.flags.Get(t);
    assert l.idle == 0 && l.screen == s.screen;
    assert l.(idle := 0) == l;
  }

  /** Right clears the screen's flag in the same way; a second Right only
      redraws. */
  lemma DetailRight(s: State)
    requires IsDetail(s.screen)
    ensures
      var t := ToggleOn(s.screen).value;
      var r := Press(s, Right);
      && r == s.(idle := 0, flags := s.flags.Set(t, false), drawn := r.drawn)
      && SameButDrawn(Press(r, Right), r)
  {
    var t := ToggleOn(s.screen).value;
    var r := Press(s, Right);
    assert r.screen == s.screen && r.idle == 0;
    var r2 := Press(r, Right);
    assert r2.flags == r.flags.Set(t, false);
    FlagsSetKeeps(r.flags, t);
  }

  /** Setting a flag to the value it has leaves the flags as they are. */
  lemma FlagsSetKeeps(f: Flags, t: Toggle)
    ensures f.Set(t, f.Get(t)) == f
  {
    var g := f.Set(t, f.Get(t));
    assert g.Get(HvEnable) == f.Get(HvEnable) && g.Get(FilterSpeed) == f.Get(FilterSpeed);
    assert g.Get(HighPass) == f.Get(HighPass) && g.Get(DeEmphasis) == f.Get(DeEmphasis);
    assert g.Get(NonOversample) == f.Get(NonOversample) && g.Get(PhaseComp) == f.Get(PhaseComp);
  }

  /** On a detail screen Down sets the OK box in the legacy program and
      clears it in the packaged one, and Up does nothing. */
  lemma DetailUpDown(s: State)
    requires IsDetail(s.screen)
    ensures Press(s, Down) == s.(idle := 0, okFlag := DownOk(s.variant), drawn := Press(s, Down).drawn)
    ensures Press(s, Up) == s.(idle := 0)
  {
  }

  /** The packaged Down never sets the OK box; the legacy Down never clears
      it. */
  lemma DownOkContrast(s: State)
    requires IsDetail(s.screen)
    ensures s.variant == Packaged ==> !Press(s, Down).okFlag
    ensures s.variant == Legacy ==> Press(s, Down).okFlag
  {
  }

  /** No button changes the de-emphasis flag or the de-emphasis switch: the
      screen opened from filter line 3 is the HP screen, and every branch on
      it acts on the high-pass filter. */
  lemma DeEmphasisUntouched(s: State, b: Button)
    ensures Press(s, b).flags.deEmp == s.flags.deEmp
    ensures Press(s, b).card.sw.de == s.card.sw.de
  {
    var s0 := s.(idle := 0);
    match b
    case Ok =>
      if IsDetail(s.screen) {
        CommitRule(s);
        assert Live(Press(s, b).card, DeEmphasis) == Live(s.card, DeEmphasis);
      } else {
        assert Press(s, b) == OkPress(s0);
      }
    case Left =>
      var r := Spec.Left(s0);
      assert Press(s, b) == r && r.card == s.card;
      assert r.flags.Get(DeEmphasis) == s.flags.Get(DeEmphasis);
    case Right =>
      var r := Spec.Right(s0);
      assert Press(s, b) == r && r.card == s.card;
      assert r.flags.Get(DeEmphasis) == s.flags.Get(DeEmphasis);
    case Up => assert Press(s, b) == Spec.Up(s0);
    case Down => assert Press(s, b) == Spec.Down(s0);
  }

  /** The screen entered from filter line 3 draws DE-EMPH, but Left and Ok
      on it act on the high-pass filter. */
  lemma DeScreenEditsHighPass(s: State)
    requires s.screen == Filter && s.fIndx == 3
    ensures
      var d := Press(s, Ok);
      && d.screen == Hp
      && d.drawn[|d.drawn| - 4] == Text(0, 20, "DE-EMPH", false)
      && Press(d, Left).flags == d.flags.Set(HighPass, true)
      && Press(Press(d, Left), Ok).writes ==
           d.writes + (if Live(d.card, HighPass) then [] else [ToggleSwitch(HighPassCtl)])
  {
    var d := Press(s, Ok);
    assert d == DetailScreen(s.(idle := 0), DeEmphasis);
    CommitRule(Press(d, Left));
  }

  /** The packaged stream line is "No stream" exactly when hw_params has no
      format line. A poll caches the text and redraws (resetting the idle
      counter) only when it changed, so a second poll over the same file
      changes nothing; the legacy program draws on every poll. */
  lemma HwLineRules(s: State)
    requires s.screen == Main && ParseHwParams(s.card.hwParams).Returned?
    ensures
      var info := ParseHwParams(s.card.hwParams).value;
      var r := HwLine(s);
      && (s.variant == Packaged ==>
            && r.hwLine == HwLineText(info)
            && (r.hwLine == "No stream" <==> LastFormatIndex(s.card.hwParams) < 0)
            && (s.hwLine != r.hwLine ==> r.idle == 0 && r.drawn == s.drawn + [Text(5, 5, "                  ", false), Text(5, 5, r.hwLine, false)])
            && (s.hwLine == r.hwLine ==> r == s)
            && HwLine(r) == r)
      && (s.variant == Legacy ==>
            && r.drawn == s.drawn + [Text(5, 5, LegacyHwLineText(info), false)]
            && |HwLine(r).drawn| == |r.drawn| + 1)
  {
    var info := ParseHwParams(s.card.hwParams).value;
    if s.variant == Packaged {
      HwLineTextMeaning(s.card.hwParams);
      var text := HwLineText(info);
      if s.hwLine != text {
        var r := s.(idle := 0, hwLine := text);
        assert HwLine(s) == Draw(r, [Text(5, 5, "                  ", false), Text(5, 5, text, false)]);
      } else {
        assert HwLine(s) == s;
      }
    } else {
      var r := Draw(s, [Text(5, 5, LegacyHwLineText(info), false)]);
      assert HwLine(s) == r;
      assert HwLine(r) == Draw(r, [Text(5, 5, LegacyHwLineText(info), false)]);
    }
  }

  /** k copies of one drawing call. */
  function Repeat(op: DisplayOp, k: nat): (ops: seq<DisplayOp>)
    ensures |ops| == k && forall i :: 0 <= i < k ==> ops[i] == op
  {
    seq(k, _ => op)
  }

  function Ticks(n: nat): (inputs: seq<Input>)
    ensures |inputs| == n && forall i :: 0 <= i < n ==> inputs[i] == Tick
  {
    seq(n, _ => Tick)
  }

  /** n seconds of the idle loop without input, starting from counter i:
      the counter takes the values i + 1 .. i + n at the loop's test, so the
      panel is powered up once, at the first test when the counter was 0,
      and powered down at every test where the counter has reached the
      threshold. */
  lemma {:induction false} IdleLoop(s: State, n: nat)
    requires s.idle >= 0
    ensures
      var r := Run(s, Ticks(n));
      var i, T := s.idle, IdleThreshold(s.variant);
      var downs := if i >= T then n else if i + n >= T then i + n - T + 1 else 0;
      && r == s.(idle := i + n, drawn := r.drawn)
      && r.drawn == s.drawn + (if i == 0 < n then [PowerUp] else []) + Repeat(PowerDown, downs)
    decreases n
  {
    var i, T := s.idle, IdleThreshold(s.variant);
    if n > 0 {
      var s1 := IdleTick(s);
      assert s1.idle == i + 1;
      assert Ticks(n)[1..] == Ticks(n - 1);
      IdleLoop(s1, n - 1);
      var r := Run(s1, Ticks(n - 1));
      assert Run(s, Ticks(n)) == r;
      if i + 1 >= T {
        assert s1.drawn == s.drawn + [PowerDown];
        assert [PowerDown] + Repeat(PowerDown, n - 1) == Repeat(PowerDown, n);
      } else if i == 0 {
        assert s1.drawn == s.drawn + [PowerUp];
      } else {
        assert s1.drawn == s.drawn;
      }
    } else {
      assert Repeat(PowerDown, 0) == [];
    }
  }

  /** From a counter of 0 (a button was pressed during the last sleep), the
      panel is powered up at the very next test and powered down from the
      T-th second on. */
  lemma IdleFromPress(s: State, n: nat)
    requires s.idle == 0
    ensures
      var r := Run(s, Ticks(n));
      var T := IdleThreshold(s.variant);
      r.drawn == s.drawn + (if n >= 1 then [PowerUp] else []) + Repeat(PowerDown, if n >= T then n - T + 1 else 0)
  {
    IdleLoop(s, n);
  }

  /** One press keeps both cursors in range and the display in step with
      the card outside the detail screen being edited; it never touches the
      de-emphasis setting, and the write and drawing logs only grow. */
  lemma PressPreserves(s: State, b: Button)
    requires Valid(s) && Synced(s)
    ensures
      var r := Press(s, b);
      && Valid(r) && Synced(r)
      && r.variant == s.variant
      && r.flags.deEmp == s.flags.deEmp && r.card.sw.de == s.card.sw.de
      && s.writes <= r.writes && s.drawn <= r.drawn
  {
    CursorsKept(s, b);
    DeEmphasisUntouched(s, b);
    if b == Ok && IsDetail(s.screen) {
      CommitRule(s);
    }
  }

  lemma StepPreserves(s: State, i: Input)
    requires Valid(s) && Synced(s)
    ensures
      var r := Step(s, i);
      && Valid(r) && Synced(r)
      && r.variant == s.variant
      && r.flags.deEmp == s.flags.deEmp && r.card.sw.de == s.card.sw.de
      && s.writes <= r.writes && s.drawn <= r.drawn
  {
    if i.Pin? && ButtonOfPin(i.n).Some? {
      PressPreserves(s, ButtonOfPin(i.n).value);
    }
  }

  /** The invariants hold after any sequence of inputs. */
  lemma {:induction false} RunPreserves(s: State, inputs: seq<Input>)
    requires Valid(s) && Synced(s)
    ensures
      var r := Run(s, inputs);
      && Valid(r) && Synced(r)
      && r.variant == s.variant
      && r.flags.deEmp == s.flags.deEmp && r.card.sw.de == s.card.sw.de
      && s.writes <= r.writes && s.drawn <= r.drawn
    decreases |inputs|
  {
    if inputs != [] {
      StepPreserves(s, inputs[0]);
      RunPreserves(Step(s, inputs[0]), inputs[1..]);
    }
  }

  /** After start-up the display is on the main screen, with the settings as
      the card has them and nothing written; the legacy program's first
      idle test has powered the panel up. */
  lemma StartupState(v: Variant, card: Card)
    ensures
      var r := Startup(v, card);
      && r.variant == v && Valid(r) && Synced(r)
      && r.screen == Main && r.flags == LiveFlags(card) && !r.okFlag
      && r.card == card && r.writes == []
      && r.idle == (if v == Legacy then 1 else 0)
      && |r.drawn| > 0 && (v == Legacy ==> r.drawn[|r.drawn| - 1] == PowerUp)
  {
  }

  /** Outside a detail screen every displayed setting is the card's. */
  lemma SyncedOutsideDetail(s: State)
    requires Synced(s) && !IsDetail(s.screen)
    ensures s.flags == LiveFlags(s.card)
  {
    var f, g := s.flags, LiveFlags(s.card);
    assert f.Get(HvEnable) == g.Get(HvEnable) && f.Get(FilterSpeed) == g.Get(FilterSpeed);
    assert f.Get(HighPass) == g.Get(HighPass) && f.Get(DeEmphasis) == g.Get(DeEmphasis);
    assert f.Get(NonOversample) == g.Get(NonOversample) && f.Get(PhaseComp) == g.Get(PhaseComp);
  }

  /** Pins whose presses a program delivers to button_callback. */
  predicate OnPins(inputs: seq<Input>, pins: seq<int>) {
    forall k :: 0 <= k < |inputs| ==> inputs[k].Pin? ==> inputs[k].n in pins
  }

  /** Any button but Ok leaves the card and the write log alone. */
  lemma NoWriteWithoutOk(s: State, b: Button)
    requires b != Ok
    ensures Press(s, b).card == s.card && Press(s, b).writes == s.writes
  {
  }

  /** As written, the legacy program only wires Left, Right, Up and Down, so
      no sequence of inputs ever writes a setting to the card. */
  lemma {:induction false} LegacyAsWrittenNeverWrites(s: State, inputs: seq<Input>)
    requires OnPins(inputs, LegacyWiredPinsAsWritten)
    ensures Run(s, inputs).writes == s.writes && Run(s, inputs).card == s.card
    decreases |inputs|
  {
    if inputs != [] {
      var s1 := Step(s, inputs[0]);
      if inputs[0].Pin? {
        LegacyOkNeverDispatched();
        assert inputs[0].n in LegacyWiredPinsAsWritten;
        if ButtonOfPin(inputs[0].n).Some? {
          NoWriteWithoutOk(s, ButtonOfPin(inputs[0].n).value);
        }
      }
      assert OnPins(inputs[1..], LegacyWiredPinsAsWritten) by {
        forall k | 0 <= k < |inputs[1..]| && inputs[1..][k].Pin?
          ensures inputs[1..][k].n in LegacyWiredPinsAsWritten
        {
          assert inputs[1..][k] == inputs[k + 1];
        }
      }
      LegacyAsWrittenNeverWrites(s1, inputs[1..]);
    }
  }

  lemma {:induction false} RunAppend(s: State, a: seq<Input>, b: seq<Input>)
    ensures Run(s, a + b) == Run(Run(s, a), b)
    decreases |a|
  {
    if a != [] {
      assert (a + b)[0] == a[0] && (a + b)[1..] == a[1..] + b;
      RunAppend(Step(s, a[0]), a[1..], b);
    } else {
      assert a + b == b;
    }
  }

  /** Right, then Down three times, then Ok: from the main screen to the
      SPEED screen, touching neither the settings nor the card. */
  const OpenSpeed: seq<Input> := [Pin(24), Pin(8), Pin(8), Pin(8), Pin(15)]

  /** Left, then Ok: select FAST and commit it. */
  const ChooseFast: seq<Input> := [Pin(14), Pin(15)]

  /** Down in the main menu only moves its cursor. */
  lemma MenuDown(s: State)
    requires s.screen == Menu
    ensures
      var r := Press(s, Down);
      && r.screen == Menu && r.mIndx == WrapDown(s.mIndx)
      && r.variant == s.variant && r.flags == s.flags && r.card == s.card
      && r.writes == s.writes && r.okFlag == s.okFlag
  {
  }

  /** Right on the main screen opens the main menu and keeps its cursor. */
  lemma MainRight(s: State)
    requires s.screen == Main
    ensures
      var r := Press(s, Right);
      && r.screen == Menu && r.mIndx == s.mIndx
      && r.variant == s.variant && r.flags == s.flags && r.card == s.card
      && r.writes == s.writes && r.okFlag == s.okFlag
  {
  }

  lemma OpenSpeedScreen(s: State)
    requires s.screen == Main && s.mIndx == 1
    ensures
      var r := Run(s, OpenSpeed);
      && r.screen == Sp && r.variant == s.variant && r.flags == s.flags
      && r.card == s.card && r.writes == s.writes && r.okFlag == s.okFlag
  {
    assert ButtonOfPin(24) == Some(Right) && ButtonOfPin(8) == Some(Down) && ButtonOfPin(15) == Some(Ok);
    var s1 := Step(s, Pin(24));
    assert s1 == Press(s, Right);
    MainRight(s);
    var s2 := Step(s1, Pin(8));
    assert s2 == Press(s1, Down);
    MenuDown(s1);
    var s3 := Step(s2, Pin(8));
    assert s3 == Press(s2, Down);
    MenuDown(s2);
    var s4 := Step(s3, Pin(8));
    assert s4 == Press(s3, Down);
    MenuDown(s3);
    assert s4.screen == Menu && s4.mIndx == 4;
    var s5 := Step(s4, Pin(15));
    assert s5 == Press(s4, Ok);
    assert s5.screen == Sp;
    assert Run(s4, [Pin(15)]) == s5;
    assert Run(s, OpenSpeed) == s5 by {
      assert OpenSpeed == [Pin(24), Pin(8), Pin(8), Pin(8)] + [Pin(15)];
      RunAppend(s, [Pin(24), Pin(8), Pin(8), Pin(8)], [Pin(15)]);
      assert [Pin(24), Pin(8), Pin(8), Pin(8)][1..] == [Pin(8), Pin(8), Pin(8)];
      assert [Pin(8), Pin(8), Pin(8)][1..] == [Pin(8), Pin(8)];
      assert [Pin(8), Pin(8)][1..] == [Pin(8)];
    }
  }

  lemma ChooseFastCommits(s: State)
    requires s.screen == Sp && !s.card.fast
    ensures
      var r := Run(s, ChooseFast);
      && r.writes == s.writes + [WriteSpeed(true)] && r.card.fast
      && r.screen == Menu && r.flags.filSp && r.okFlag == (s.variant == Packaged)
  {
    var s1 := Step(s, Pin(14));
    assert s1.screen == Sp && s1.flags.filSp && s1.card == s.card && s1.writes == s.writes;
    var s2 := Step(s1, Pin(15));
    SpeedCommit(s1);
    CommitRule(s1);
    assert ChooseFast[1..] == [Pin(15)];
  }

  /** Right, Down three times, Ok, Left, Ok: open the speed screen from the
      main screen, select FAST and commit it. */
  const SelectFast: seq<Input> := OpenSpeed + ChooseFast

  /** The selection uses the Ok pin, which the legacy program as written
      does not wire. */
  lemma SelectFastNeedsOk()
    ensures OnPins(SelectFast, WiredPins) && !OnPins(SelectFast, LegacyWiredPinsAsWritten)
  {
    assert SelectFast[4] == Pin(15) && 15 !in LegacyWiredPinsAsWritten;
  }

  /** With the Ok button wired, selecting FAST on a slow card writes the
      speed once, in both programs, and the display ends on the menu in step
      with the card. */
  lemma SelectFastCommits(v: Variant, card: Card)
    requires !card.fast
    ensures
      var r := Run(Startup(v, card), SelectFast);
      && r.writes == [WriteSpeed(true)] && r.card.fast
      && r.screen == Menu && r.flags.filSp
      && r.okFlag == (v == Packaged)
  {
    var s0 := Startup(v, card);
    StartupState(v, card);
    OpenSpeedScreen(s0);
    RunAppend(s0, OpenSpeed, ChooseFast);
    ChooseFastCommits(Run(s0, OpenSpeed));
  }
}
