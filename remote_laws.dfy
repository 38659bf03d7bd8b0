/** What the remote thread promises: volume steps stay in range and undo
    each other away from the step boundary, both mixers always receive the
    same level, the remembered level is the card's, mute twice restores the
    card, and no key event disturbs the menu. */
module RemoteLaws {
  import opened Screens
  import opened Alsa
  import opened Menu
  import opened Remote
  import opened MenuLaws

  /** The packaged steps keep a level in [0, 255]. Down undoes Up except
      where Up crosses 200 (198, 199) or is stuck at 255; Up undoes Down
      except at the floor (0, 1) and where Down crosses 200 (200 itself). */
  lemma PackagedVolumeSteps(c: int)
    requires 0 <= c <= 255
    ensures 0 <= PackagedVolumeUp(c) <= 255 && 0 <= PackagedVolumeDown(c) <= 255
    ensures PackagedVolumeDown(PackagedVolumeUp(c)) == c <==> c < 198 || 200 <= c <= 254
    ensures PackagedVolumeUp(PackagedVolumeDown(c)) == c <==> 2 <= c <= 199 || 201 <= c
  {
  }

  /** The legacy steps keep a percentage in [0, 100], and Down undoes Up
      everywhere below 100. */
  lemma LegacyVolumeSteps(v: int)
    requires 0 <= v <= 100
    ensures 0 <= LegacyVolumeUp(v) <= 100 && 0 <= LegacyVolumeDown(v) <= 100
    ensures LegacyVolumeDown(LegacyVolumeUp(v)) == v <==> v < 100
    ensures LegacyVolumeUp(LegacyVolumeDown(v)) == v <==> v > 0
  {
  }

  /** `n` presses of volume-up in the packaged program. */
  function PackagedUps(c: int, n: nat): int
    decreases n
  {
    if n == 0 then c else PackagedUps(PackagedVolumeUp(c), n - 1)
  }

  /** Holding volume-up reaches the maximum 255 after at most 255 - c
      presses and then stays there. */
  lemma {:induction false} PackagedUpsReachMax(c: int, n: nat)
    requires 0 <= c <= 255 && n >= 255 - c
    ensures PackagedUps(c, n) == 255
    decreases n
  {
    if n > 0 {
      PackagedUpsReachMax(PackagedVolumeUp(c), n - 1);
    }
  }

  function LegacyUps(v: int, n: nat): int
    decreases n
  {
    if n == 0 then v else LegacyUps(LegacyVolumeUp(v), n - 1)
  }

  /** In the legacy program `n` presses raise the percentage by `n`, up to
      100. */
  lemma {:induction false} LegacyUpsClosedForm(v: int, n: nat)
    requires 0 <= v <= 100
    ensures LegacyUps(v, n) == if v + n < 100 then v + n else 100
    decreases n
  {
    if n > 0 {
      LegacyUpsClosedForm(LegacyVolumeUp(v), n - 1);
    }
  }

  /** The packaged thread's remembered level is the card's Master volume. */
  predicate Tracks(r: RemoteState) {
    r.lcd.variant == Packaged ==> r.currVol == r.lcd.card.masterVol
  }

  /** A key event keeps the remembered level in step with the card, so every
      volume key of either program starts from the Master volume the card
      has; after a volume key Master and Digital hold the same level. */
  lemma HandleTracks(r: RemoteState, e: KeyEvent)
    requires Tracks(r)
    ensures Tracks(Handle(r, e))
    ensures StartLevel(r) == r.lcd.card.masterVol
    ensures Accepted(e) && (e.code == KeyVolumeUp || e.code == KeyVolumeDown) ==>
      Handle(r, e).lcd.card.masterVol == Handle(r, e).lcd.card.digitalVol
        == VolumeStep(r.lcd.variant, e.code == KeyVolumeUp, r.lcd.card.masterVol)
  {
  }

  /** Another mixer client sets Master to `v` between two key events: a
      volume key then steps the legacy program from `v`, and the packaged
      program from the level it remembers, whatever `v` is. */
  lemma ExternalMasterWrite(r: RemoteState, v: int, e: KeyEvent)
    requires Accepted(e) && (e.code == KeyVolumeUp || e.code == KeyVolumeDown)
    ensures
      var up := e.code == KeyVolumeUp;
      var r' := Handle(r.(lcd := r.lcd.(card := r.lcd.card.(masterVol := v))), e);
      && r'.lcd.card.masterVol == r'.lcd.card.digitalVol
      && (r.lcd.variant == Legacy ==> r'.lcd.card.masterVol == VolumeStep(Legacy, up, v))
      && (r.lcd.variant == Packaged ==> r'.lcd.card.masterVol == VolumeStep(Packaged, up, r.currVol))
  {
  }

  /** Two presses of mute give the card back its switches. */
  lemma MuteTwice(r: RemoteState, e: KeyEvent)
    requires Accepted(e) && e.code == KeyMute
    ensures Handle(Handle(r, e), e).lcd.card == r.lcd.card
    ensures Handle(r, e).lcd.card.sw.master == !r.lcd.card.sw.master
    ensures Handle(r, e).lcd.card.sw.digital == !r.lcd.card.sw.digital
  {
    var sw := r.lcd.card.sw;
    var sw2 := sw.Flip(MasterCtl).Flip(DigitalCtl).Flip(MasterCtl).Flip(DigitalCtl);
    assert sw2 == sw;
  }

  /** What a remote key can change on the card leaves every setting the
      menu shows as it was. */
  lemma RemoteKeepsSettings(r: RemoteState, e: KeyEvent)
    ensures forall t: Toggle :: Live(Handle(r, e).lcd.card, t) == Live(r.lcd.card, t)
  {
    var c, c' := r.lcd.card, Handle(r, e).lcd.card;
    forall t: Toggle ensures Live(c', t) == Live(c, t) {
      if t != FilterSpeed {
        assert c'.sw.Get(ControlOf(t)) == c.sw.Get(ControlOf(t));
      }
    }
  }

  /** Any sequence of key events leaves the screen, the cursors, the
      displayed settings, the OK box and the cached stream line alone, keeps
      the menu invariants and the remembered level, and only appends to the
      write and drawing logs. */
  lemma {:induction false} RemoteRunPreserves(r: RemoteState, events: seq<KeyEvent>)
    requires Tracks(r) && Valid(r.lcd) && Synced(r.lcd)
    ensures
      var r' := RemoteRun(r, events);
      && Tracks(r') && Valid(r'.lcd) && Synced(r'.lcd)
      && r'.lcd == r.lcd.(card := r'.lcd.card, writes := r'.lcd.writes, drawn := r'.lcd.drawn, idle := r'.lcd.idle)
      && r.lcd.writes <= r'.lcd.writes && r.lcd.drawn <= r'.lcd.drawn
    decreases |events|
  {
    if events != [] {
      var r1 := Handle(r, events[0]);
      HandleTracks(r, events[0]);
      RemoteKeepsSettings(r, events[0]);
      RemoteRunPreserves(r1, events[1..]);
    }
  }

  /** What can happen next in the whole program: an input of the buttons,
      the idle loop or the poller, or an event of the remote thread. Each
      runs as one whole callback. */
  datatype Event = PanelInput(i: Input) | RemoteKey(e: KeyEvent)

  function Interleave(r: RemoteState, events: seq<Event>): RemoteState
    decreases |events|
  {
    if events == [] then r
    else
      var r1 := match events[0]
        case PanelInput(i) => r.(lcd := Step(r.lcd, i))
        case RemoteKey(e) => Handle(r, e);
      Interleave(r1, events[1..])
  }

  /** No button, tick or poll changes the Master volume. */
  lemma StepKeepsVolume(s: State, i: Input)
    requires Valid(s)
    ensures Step(s, i).card.masterVol == s.card.masterVol
  {
    if i.Pin? && ButtonOfPin(i.n).Some? {
      var b := ButtonOfPin(i.n).value;
      if b != Ok {
        NoWriteWithoutOk(s, b);
      } else if IsDetail(s.screen) {
        CommitRule(s);
      } else {
        OkDispatch(s);
      }
    }
  }

  /** Any interleaving of the panel's inputs with the remote's key events
      keeps the menu invariants, the remembered level in step with the
      card, and de-emphasis untouched; the logs only grow. */
  lemma {:induction false} InterleavePreserves(r: RemoteState, events: seq<Event>)
    requires Tracks(r) && Valid(r.lcd) && Synced(r.lcd)
    ensures
      var r' := Interleave(r, events);
      && Tracks(r') && Valid(r'.lcd) && Synced(r'.lcd)
      && r'.lcd.variant == r.lcd.variant
      && r'.lcd.flags.deEmp == r.lcd.flags.deEmp && r'.lcd.card.sw.de == r.lcd.card.sw.de
      && r.lcd.writes <= r'.lcd.writes && r.lcd.drawn <= r'.lcd.drawn
    decreases |events|
  {
    if events != [] {
      match events[0]
      case PanelInput(i) =>
        StepPreserves(r.lcd, i);
        StepKeepsVolume(r.lcd, i);
        InterleavePreserves(r.(lcd := Step(r.lcd, i)), events[1..]);
      case RemoteKey(e) =>
        var r1 := Handle(r, e);
        HandleTracks(r, e);
        RemoteKeepsSettings(r, e);
        RemoteRunPreserves(r, [e]);
        InterleavePreserves(r1, events[1..]);
    }
  }
}
