/** The countdown before a capture (pibox5/ui/screens/countdown_screen.py): an integer
    counter decremented by a 1000 ms timer, the display and hint it shows, and the delayed
    finish. Widgets, styles and animations are not modelled; a Qt timer is its state. */
module CountdownScreen {
  import opened Common
  import opened Config
  import opened CameraBase

  /** A Qt timer: stopped, or firing every `intervalMs`. */
  datatype Timer = Stopped | Running(intervalMs: int)

  const ReadyHint: string := "Bereit machen!"
  const SmileHint: string := "Lächeln!"
  const FlashLabel: string := "📸"

  /** What the countdown shows and has scheduled: `display` is the big number label
      (`label` is a Dafny keyword); `pendingFinishes` counts the delayed
      finish calls scheduled and not yet delivered. */
  datatype Countdown = Countdown(value: int, display: string, hint: string, timer: Timer, pendingFinishes: nat)

  /** `start_countdown`: the counter and display restart; the hint is left as it is. */
  function StartStep(c: Countdown, seconds: int): (r: Countdown)
    ensures r.value == seconds && r.display == IntToString(seconds) && r.timer == Running(1000)
    ensures r.hint == c.hint && r.pendingFinishes == c.pendingFinishes
  {
    Countdown(seconds, IntToString(seconds), c.hint, Running(1000), c.pendingFinishes)
  }

  /** `_tick`. */
  function TickStep(c: Countdown): Countdown
  {
    var v := c.value - 1;
    if v <= 0 then
      Countdown(v, FlashLabel, c.hint, Stopped, c.pendingFinishes + 1)
    else
      Countdown(v, IntToString(v), if v == 1 then SmileHint else c.hint, c.timer, c.pendingFinishes)
  }

  /** The state after `k` ticks. */
  function Ticks(c: Countdown, k: nat): Countdown
  {
    if k == 0 then c else TickStep(Ticks(c, k - 1))
  }

  /** The hint after `k` ticks of an `n`-second countdown that started with hint `h`. */
  function HintAfter(h: string, n: int, k: nat): string
  {
    if n >= 2 && k >= n - 1 then SmileHint else h
  }

  /** Before the `n`-th tick the timer keeps running, nothing is scheduled, and the display
      shows the seconds left: n, n-1, ..., 1. */
  lemma {:induction false} TicksBeforeFinish(c: Countdown, n: int, k: nat)
    requires n >= 1 && k < n
    ensures Ticks(StartStep(c, n), k) ==
            Countdown(n - k, IntToString(n - k), HintAfter(c.hint, n, k), Running(1000), c.pendingFinishes)
  {
    if k > 0 {
      TicksBeforeFinish(c, n, k - 1);
    }
  }

  /** The `n`-th tick stops the timer, shows the camera icon and schedules the finish once. */
  lemma CountdownFinishes(c: Countdown, n: int)
    requires n >= 1
    ensures Ticks(StartStep(c, n), n) ==
            Countdown(0, FlashLabel, HintAfter(c.hint, n, n - 1), Stopped, c.pendingFinishes + 1)
  {
    TicksBeforeFinish(c, n, n - 1);
  }

  /** The hint turns to "Lächeln!" exactly on the tick that shows 1, and stays. */
  lemma HintTurnsOnLastSecond(c: Countdown, n: int, k: nat)
    requires n >= 2 && c.hint == ReadyHint && 1 <= k <= n
    ensures Ticks(StartStep(c, n), k).hint == SmileHint <==> Ticks(StartStep(c, n), k).value <= 1
  {
    if k < n {
      TicksBeforeFinish(c, n, k);
    } else {
      CountdownFinishes(c, n);
    }
  }

  /** A countdown of zero or fewer seconds ends on the first tick. */
  lemma NonPositiveFinishesAtOnce(c: Countdown, n: int)
    requires n <= 0
    ensures Ticks(StartStep(c, n), 1).timer == Stopped
    ensures Ticks(StartStep(c, n), 1).pendingFinishes == c.pendingFinishes + 1
  {
  }

  class CountdownScreen {
    var settings: Settings
    var value: int
    var display: string
    var hint: string
    var timer: Timer
    var pendingFinishes: nat
    var displayVisible: bool
    var hintVisible: bool
    /** The preview's blur flag and the last frame handed to it. */
    var previewBlur: bool
    var previewFrame: Option<PreviewFrame>
    /** How often `countdown_finished` was emitted. */
    var finishedSignals: nat

    function State(): Countdown
      reads this
    {
      Countdown(value, display, hint, timer, pendingFinishes)
    }

    constructor (settings: Settings)
      ensures this.settings == settings
      ensures State() == Countdown(0, "", ReadyHint, Stopped, 0)
      ensures !previewBlur && previewFrame == None && finishedSignals == 0
    {
      this.settings := settings;
      value := 0;
      display := "";
      hint := ReadyHint;
      timer := Stopped;
      pendingFinishes := 0;
      displayVisible := true;
      hintVisible := true;
      previewBlur := false;
      previewFrame := None;
      finishedSignals := 0;
    }

    /** Starts from the configured number of seconds and shows both labels. */
    method StartCountdown()
      modifies this
      ensures State() == StartStep(old(State()), settings.timing.countdownSeconds)
      ensures displayVisible && hintVisible
      ensures settings == old(settings) && finishedSignals == old(finishedSignals)
      ensures previewBlur == old(previewBlur) && previewFrame == old(previewFrame)
    {
      value := settings.timing.countdownSeconds;
      display := IntToString(value);
      displayVisible := true;
      hintVisible := true;
      timer := Running(1000);
    }

    /** Stops the timer and hides the labels; a finish already scheduled still arrives. */
    method StopCountdown()
      modifies this
      ensures timer == Stopped && !displayVisible && !hintVisible
      ensures value == old(value) && display == old(display) && hint == old(hint)
      ensures pendingFinishes == old(pendingFinishes) && finishedSignals == old(finishedSignals)
      ensures settings == old(settings) && previewBlur == old(previewBlur) && previewFrame == old(previewFrame)
    {
      timer := Stopped;
      displayVisible := false;
      hintVisible := false;
    }

    /** One timer tick. */
    method Tick()
      modifies this
      ensures State() == TickStep(old(State()))
      ensures displayVisible == old(displayVisible) && hintVisible == old(hintVisible)
      ensures settings == old(settings) && finishedSignals == old(finishedSignals)
      ensures previewBlur == old(previewBlur) && previewFrame == old(previewFrame)
    {
      value := value - 1;
      if value <= 0 {
        timer := Stopped;
        display := FlashLabel;
        pendingFinishes := pendingFinishes + 1;
      } else {
        display := IntToString(value);
        if value == 1 {
          hint := SmileHint;
        }
      }
    }

    /** The delayed finish: hides the labels and emits `countdown_finished`. */
    method FinishCountdown()
      modifies this
      ensures !displayVisible && !hintVisible
      ensures finishedSignals == old(finishedSignals) + 1
      ensures pendingFinishes == if old(pendingFinishes) > 0 then old(pendingFinishes) - 1 else 0
      ensures value == old(value) && display == old(display) && hint == old(hint) && timer == old(timer)
      ensures settings == old(settings) && previewBlur == old(previewBlur) && previewFrame == old(previewFrame)
    {
      displayVisible := false;
      hintVisible := false;
      if pendingFinishes > 0 {
        pendingFinishes := pendingFinishes - 1;
      }
      finishedSignals := finishedSignals + 1;
    }

    /** Shows the frame unblurred, whatever `blur` asks for. */
    method UpdatePreview(frame: PreviewFrame, blur: bool)
      modifies this
      ensures !previewBlur && previewFrame == Some(frame)
      ensures State() == old(State()) && settings == old(settings)
      ensures displayVisible == old(displayVisible) && hintVisible == old(hintVisible)
      ensures finishedSignals == old(finishedSignals)
    {
      previewBlur := false;
      previewFrame := Some(frame);
    }

    /** The next start uses the new settings. */
    method RefreshSettings(s: Settings)
      modifies this
      ensures settings == s && State() == old(State())
      ensures displayVisible == old(displayVisible) && hintVisible == old(hintVisible)
      ensures finishedSignals == old(finishedSignals)
      ensures previewBlur == old(previewBlur) && previewFrame == old(previewFrame)
    {
      settings := s;
    }
  }

  /** A three-second countdown shows 3, 2, 1 and then finishes once. */
  method ThreeSecondCountdown(s: Settings)
    requires s.timing.countdownSeconds == 3
  {
    var screen := new CountdownScreen(s);
    screen.StartCountdown();
    assert screen.display == "3";
    screen.Tick();
    assert screen.display == "2" && screen.hint == ReadyHint;
    screen.Tick();
    assert screen.display == "1" && screen.hint == SmileHint;
    screen.Tick();
    assert screen.display == FlashLabel && screen.timer == Stopped && screen.pendingFinishes == 1;
    screen.FinishCountdown();
    assert screen.finishedSignals == 1 && screen.pendingFinishes == 0;
  }
}
