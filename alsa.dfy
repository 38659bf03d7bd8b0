/** The sound card as the display program sees it: the mixer switches and
    volumes, the `PCM Filter Speed` enumeration read through `amixer`, the
    `hw_params` file of the playback stream, and a log of every write. */
module Alsa {
  import opened PyText

  /** The mixer elements the program uses. */
  datatype Control = HvCtl | HighPassCtl | DeEmphasisCtl | NonOversampleCtl | PhaseCompCtl | MasterCtl | DigitalCtl

  /** The on/off state of every switch (on = not muted = enabled). */
  datatype Switches = Switches(hv: bool, hp: bool, de: bool, non: bool, ph: bool, master: bool, digital: bool) {
    function Get(c: Control): bool {
      match c
      case HvCtl => hv
      case HighPassCtl => hp
      case DeEmphasisCtl => de
      case NonOversampleCtl => non
      case PhaseCompCtl => ph
      case MasterCtl => master
      case DigitalCtl => digital
    }

    /** The switches after flipping `c`: only `c` changes, and it is negated. */
    function Flip(c: Control): (r: Switches)
      ensures r.Get(c) == !Get(c)
      ensures forall d: Control :: d != c ==> r.Get(d) == Get(d)
    {
      match c
      case HvCtl => this.(hv := !hv)
      case HighPassCtl => this.(hp := !hp)
      case DeEmphasisCtl => this.(de := !de)
      case NonOversampleCtl => this.(non := !non)
      case PhaseCompCtl => this.(ph := !ph)
      case MasterCtl => this.(master := !master)
      case DigitalCtl => this.(digital := !digital)
    }
  }

  /** A command sent to the card. */
  datatype HwWrite =
    | ToggleSwitch(c: Control)           // change_mute_status
    | WriteSpeed(fast: bool)               // amixer set 'PCM Filter Speed' Fast / Slow
    | WriteVolume(c: Control, level: int)  // set_volume_all / setvolume

  /** The readable state of the card. */
  datatype Card = Card(sw: Switches, fast: bool, masterVol: int, digitalVol: int, hwParams: seq<string>) {
    function Apply(w: HwWrite): Card {
      match w
      case ToggleSwitch(c) => this.(sw := sw.Flip(c))
      case WriteSpeed(f) => this.(fast := f)
      case WriteVolume(c, v) => if c == MasterCtl then this.(masterVol := v) else this.(digitalVol := v)
    }
  }

  function SpeedWord(fast: bool): string { if fast then "'Fast'" else "'Slow'" }

  /** The line `amixer get 'PCM Filter Speed' | grep Item0` prints. */
  function AmixerItem0(fast: bool): string {
    "  Item0: " + SpeedWord(fast) + "\n"
  }

  /** The filter-speed test of getFilterStatus: the second whitespace-separated
      word of the amixer output decides; Slow exactly when it is `'Slow'`.
      Fewer than two words raise IndexError. */
  function FilterIsFast(out: string): (r: Result<bool>)
    ensures r.Raised? <==> |Words(out)| < 2
    ensures r.Raised? ==> r.error == IndexError
    ensures r.Returned? ==> (!r.value <==> Words(out)[1] == "'Slow'")
  {
    var ws := Words(out);
    if |ws| < 2 then Raised(IndexError) else Returned(ws[1] != "'Slow'")
  }

  /** Reading back what amixer prints for a speed gives that speed. */
  lemma FilterStatusRoundTrip(fast: bool)
    ensures FilterIsFast(AmixerItem0(fast)) == Returned(fast)
  {
    var q := SpeedWord(fast);
    var item := "Item0:";
    assert NoSpace(q) && NoSpace(item);
    var tail := q + ['\n'] + [];
    var mid := item + [' '] + tail;
    assert AmixerItem0(fast) == [' '] + ([' '] + mid);
    WordsSkipSpace(' ', [' '] + mid);
    WordsSkipSpace(' ', mid);
    WordsWordThenSpace(item, ' ', tail);
    WordsWordThenSpace(q, '\n', []);
    assert Words(AmixerItem0(fast)) == [item, q];
  }

  /** The card number a line of `aplay -l` names: the first character of its
      second word (`card 1: Boss2 ...` gives '1'); IndexError if it has fewer
      than two words. */
  function CardOfLine(line: string): (r: Result<Option<char>>)
    ensures r != Returned(None)
    ensures r.Returned? <==> |Words(line)| >= 2
    ensures r.Raised? ==> r.error == IndexError
    ensures r.Returned? ==> Words(line)[1] != [] && r.value == Some(Words(line)[1][0])
  {
    var ws := Words(line);
    if |ws| < 2 then Raised(IndexError)
    else
      assert ws[1] in ws;
      Returned(Some(ws[1][0]))
  }

  predicate NamesBoss2(line: string) { Contains(line, "Boss2") }

  /** getCardNumber of the legacy program: scan the lines of `aplay -l` and
      stop at the first one mentioning Boss2. None when no line does. */
  method GetCardNumber(stdout: string) returns (r: Result<Option<char>>)
    ensures r == Returned(None) <==> forall i :: 0 <= i < |SplitOn(stdout, '\n')| ==> !NamesBoss2(SplitOn(stdout, '\n')[i])
    ensures r != Returned(None) ==>
      exists i :: 0 <= i < |SplitOn(stdout, '\n')| && NamesBoss2(SplitOn(stdout, '\n')[i])
        && (forall j :: 0 <= j < i ==> !NamesBoss2(SplitOn(stdout, '\n')[j]))
        && r == CardOfLine(SplitOn(stdout, '\n')[i])
  {
    var lines := SplitOn(stdout, '\n');
    r := Returned(None);
    var i := 0;
    while i < |lines|
      invariant 0 <= i <= |lines|
      invariant forall j :: 0 <= j < i ==> !NamesBoss2(lines[j])
    {
      if NamesBoss2(lines[i]) {
        r := CardOfLine(lines[i]);
        assert r != Returned(None) && NamesBoss2(SplitOn(stdout, '\n')[i]);
        return;
      }
      i := i + 1;
    }
  }

  /** The raw mute value alsaaudio reports for a switch (1 = muted). */
  function RawMute(on: bool): int { if on then 0 else 1 }

  /** get_mute_status of the legacy program: 1 - raw mute. */
  function LegacyMuteStatus(raw: int): int { 1 - raw }

  /** change_mute_status of the legacy program: the new raw mute value. */
  function LegacyChangedMute(raw: int): int { 1 - raw }

  /** On a 0/1 raw mute value, changing negates the reported status, and the
      status is 1 exactly when the switch is on. */
  lemma LegacyMuteFlip(on: bool)
    ensures LegacyMuteStatus(RawMute(on)) == (if on then 1 else 0)
    ensures LegacyMuteStatus(LegacyChangedMute(RawMute(on))) == 1 - LegacyMuteStatus(RawMute(on))
    ensures LegacyChangedMute(RawMute(on)) == RawMute(!on)
  {
  }

  /** SOUND_CTRL: the mixer elements of the card. Every write is appended to
      `writes`; `hwParams` is the content of the stream's hw_params file. */
  class SoundCtrl {
    var sw: Switches
    var fast: bool
    var masterVol: int
    var digitalVol: int
    var hwParams: seq<string>
    var writes: seq<HwWrite>

    constructor (sw0: Switches, fast0: bool, master0: int, digital0: int, params0: seq<string>)
      ensures Snapshot() == Card(sw0, fast0, master0, digital0, params0) && writes == []
    {
      sw, fast, masterVol, digitalVol, hwParams := sw0, fast0, master0, digital0, params0;
      writes := [];
    }

    function Snapshot(): Card
      reads this
    {
      Card(sw, fast, masterVol, digitalVol, hwParams)
    }

    /** get_mute_status: true when the switch is on. */
    method GetMuteStatus(c: Control) returns (on: bool)
      ensures on == sw.Get(c)
    {
      on := sw.Get(c);
    }

    /** change_mute_status: flip the switch. */
    method ChangeMuteStatus(c: Control)
      modifies this
      ensures Snapshot() == old(Snapshot()).Apply(ToggleSwitch(c))
      ensures writes == old(writes) + [ToggleSwitch(c)]
    {
      sw := sw.Flip(c);
      writes := writes + [ToggleSwitch(c)];
    }

    /** getFilterStatus: run amixer and parse its Item0 line. */
    method GetFilterStatus() returns (isFast: bool)
      ensures isFast == fast
    {
      var out := AmixerItem0(fast);
      FilterStatusRoundTrip(fast);
      var r := FilterIsFast(out);
      isFast := r.value;
    }

    /** changeFilterStatus of the packaged program: query the speed, then set
      the other one. */
    method ChangeFilterStatus()
      modifies this
      ensures Snapshot() == old(Snapshot()).Apply(WriteSpeed(!old(fast)))
      ensures writes == old(writes) + [WriteSpeed(!old(fast))]
    {
      var now := GetFilterStatus();
      if now {
        SetFilterStatus(false);
      } else {
        SetFilterStatus(true);
      }
    }

    /** setFilterStatus of the legacy program (and the amixer set command of
      the packaged one): Slow when `toFast` is false, Fast otherwise. */
    method SetFilterStatus(toFast: bool)
      modifies this
      ensures Snapshot() == old(Snapshot()).Apply(WriteSpeed(toFast))
      ensures writes == old(writes) + [WriteSpeed(toFast)]
    {
      fast := toFast;
      writes := writes + [WriteSpeed(toFast)];
    }

    /** The Master volume. */
    method GetVolume() returns (v: int)
      ensures v == masterVol
    {
      v := masterVol;
    }

    /** Set the volume of the Master or the Digital element. */
    method SetVolume(c: Control, level: int)
      requires c == MasterCtl || c == DigitalCtl
      modifies this
      ensures Snapshot() == old(Snapshot()).Apply(WriteVolume(c, level))
      ensures writes == old(writes) + [WriteVolume(c, level)]
    {
      if c == MasterCtl {
        masterVol := level;
      } else {
        digitalVol := level;
      }
      writes := writes + [WriteVolume(c, level)];
    }
  }
}
