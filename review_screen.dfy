/** The review of a captured photo (pibox5/ui/screens/review_screen.py): a single-shot
    timer that ends the review, and a 100 ms timer that counts a progress value down from
    ten steps per second and rewrites the seconds left. The photo display, the widgets
    and Qt's own range checks on the progress bar are not modelled. */
module ReviewScreen {
  import opened Common
  import opened Config

  /** A Qt timer: stopped, or running with `intervalMs`, once or repeatedly. */
  datatype Timer = Stopped | Running(intervalMs: int, singleShot: bool)

  /** The progress bar's value and the seconds the label reports. */
  datatype Progress = Progress(value: int, remaining: int)

  /** `_update_progress`: one step down while above zero; the label then reports the
      value before the step in whole seconds. */
  function ProgressStep(p: Progress): Progress
  {
    if p.value > 0 then Progress(p.value - 1, p.value / 10) else p
  }

  function ProgressAfter(p: Progress, k: nat): Progress
  {
    if k == 0 then p else ProgressStep(ProgressAfter(p, k - 1))
  }

  /** The progress `start_review_timer` sets up for `total` seconds. */
  function StartProgress(total: int): (p: Progress)
    ensures p.value == total * 10 && p.remaining == total
  {
    Progress(total * 10, total)
  }

  /** The label text for `seconds` left. */
  function TimerText(seconds: int): (s: string)
    ensures IsPrefix("Weiter in ", s)
  {
    "Weiter in " + IntToString(seconds) + " Sekunden..."
  }

  /** After `k` updates of a `total`-second review the value is `total*10 - k`, never below
      zero, and the reported seconds are the value before the last step, in whole seconds. */
  lemma {:induction false} ProgressCountsDown(total: nat, k: nat)
    ensures var p := ProgressAfter(StartProgress(total), k);
            && p.value == (if k <= total * 10 then total * 10 - k else 0)
            && p.remaining == (p.value + 1) / 10
            && 0 <= p.remaining <= total
  {
    if k > 0 {
      ProgressCountsDown(total, k - 1);
    }
  }

  /** The value never grows and never goes below zero once it is not negative. */
  lemma ProgressNonIncreasing(p: Progress)
    requires p.value >= 0
    ensures 0 <= ProgressStep(p).value <= p.value
    ensures ProgressStep(p).value == p.value ==> ProgressStep(p) == p
  {
  }

  /** The number of 100 ms updates that fit in the review, `total*10`, is exactly the
      number that brings the value to zero. */
  lemma ProgressReachesZeroWithTimer(total: nat)
    ensures ProgressAfter(StartProgress(total), total * 1000 / 100).value == 0
    ensures forall k :: 0 <= k < total * 10 ==> ProgressAfter(StartProgress(total), k).value > 0
  {
    ProgressCountsDown(total, total * 10);
    forall k | 0 <= k < total * 10
      ensures ProgressAfter(StartProgress(total), k).value > 0
    {
      ProgressCountsDown(total, k);
    }
  }

  class ReviewScreen {
    var settings: Settings
    var totalSeconds: int
    var remainingSeconds: int
    var progressMax: int
    var progressValue: int
    var timerText: string
    var messageVisible: bool
    var reviewTimer: Timer
    var progressTimer: Timer
    /** How often `review_finished` was emitted. */
    var finishedSignals: nat

    function ProgressState(): Progress
      reads this
    {
      Progress(progressValue, remainingSeconds)
    }

    /** While a review counts down: the bar spans ten steps a second, its value stays in
        range, and the label's seconds follow the value. */
    ghost predicate Counting()
      reads this
    {
      progressMax == totalSeconds * 10 && 0 <= progressValue <= progressMax &&
      remainingSeconds == (progressValue + 1) / 10
    }

    constructor (settings: Settings)
      ensures this.settings == settings && totalSeconds == 0 && remainingSeconds == 0
      ensures reviewTimer == Stopped && progressTimer == Stopped && finishedSignals == 0
    {
      this.settings := settings;
      totalSeconds := 0;
      remainingSeconds := 0;
      progressMax := 100;
      progressValue := 0;
      timerText := "";
      messageVisible := true;
      reviewTimer := Stopped;
      progressTimer := Stopped;
      finishedSignals := 0;
    }

    /** Starts a review of `review_seconds`: a full bar, the label, a single-shot timer of
        the whole review and a 100 ms progress timer. */
    method StartReviewTimer()
      modifies this
      ensures totalSeconds == settings.timing.reviewSeconds
      ensures ProgressState() == StartProgress(totalSeconds) && progressMax == totalSeconds * 10
      ensures timerText == TimerText(totalSeconds) && messageVisible
      ensures reviewTimer == Running(totalSeconds * 1000, true) && progressTimer == Running(100, false)
      ensures totalSeconds >= 0 ==> Counting()
      ensures settings == old(settings) && finishedSignals == old(finishedSignals)
    {
      totalSeconds := settings.timing.reviewSeconds;
      remainingSeconds := totalSeconds;
      messageVisible := true;
      progressMax := totalSeconds * 10;
      progressValue := totalSeconds * 10;
      timerText := TimerText(remainingSeconds);
      reviewTimer := Running(totalSeconds * 1000, true);
      progressTimer := Running(100, false);
    }

    /** Stops both timers. */
    method StopReviewTimer()
      modifies this
      ensures reviewTimer == Stopped && progressTimer == Stopped
      ensures ProgressState() == old(ProgressState()) && totalSeconds == old(totalSeconds)
      ensures progressMax == old(progressMax) && timerText == old(timerText)
      ensures settings == old(settings) && finishedSignals == old(finishedSignals)
    {
      reviewTimer := Stopped;
      progressTimer := Stopped;
    }

    /** One progress tick; `Counting` is kept. */
    method UpdateProgress()
      modifies this
      ensures ProgressState() == ProgressStep(old(ProgressState()))
      ensures old(progressValue) > 0 ==> timerText == TimerText(remainingSeconds)
      ensures old(progressValue) <= 0 ==> timerText == old(timerText)
      ensures old(Counting()) ==> Counting() && 0 <= remainingSeconds <= totalSeconds &&
                                  progressValue <= old(progressValue)
      ensures totalSeconds == old(totalSeconds) && progressMax == old(progressMax)
      ensures reviewTimer == old(reviewTimer) && progressTimer == old(progressTimer)
      ensures settings == old(settings) && finishedSignals == old(finishedSignals)
    {
      var current := progressValue;
      if current > 0 {
        progressValue := current - 1;
        remainingSeconds := current / 10;
        timerText := TimerText(remainingSeconds);
      }
    }

    /** The review timer fired: it is single-shot, so it is now stopped; the progress timer
        stops, the bar empties and `review_finished` is emitted once. */
    method OnReviewTimeout()
      modifies this
      ensures reviewTimer == Stopped && progressTimer == Stopped && progressValue == 0
      ensures finishedSignals == old(finishedSignals) + 1
      ensures remainingSeconds == old(remainingSeconds) && totalSeconds == old(totalSeconds)
      ensures progressMax == old(progressMax) && timerText == old(timerText)
      ensures settings == old(settings)
    {
      reviewTimer := Stopped;
      progressTimer := Stopped;
      progressValue := 0;
      finishedSignals := finishedSignals + 1;
    }

    /** Hides the "photo taken" message two seconds after the start. */
    method OnMessageTimeout()
      modifies this`messageVisible
      ensures !messageVisible
    {
      messageVisible := false;
    }

    method RefreshSettings(s: Settings)
      modifies this`settings
      ensures settings == s
    {
      settings := s;
    }
  }

  /** A five-second review: two updates leave 48 steps and report four seconds. */
  method FiveSecondReview(s: Settings)
    requires s.timing.reviewSeconds == 5
  {
    var screen := new ReviewScreen(s);
    screen.StartReviewTimer();
    assert screen.progressValue == 50 && screen.reviewTimer == Running(5000, true);
    screen.UpdateProgress();
    screen.UpdateProgress();
    assert screen.progressValue == 48 && screen.remainingSeconds == 4;
    screen.OnReviewTimeout();
    assert screen.progressValue == 0 && screen.finishedSignals == 1;
  }
}
