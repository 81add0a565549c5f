/** The progress tracker: which step indicator is done or current, and the
    effect that follows a job over server-sent events and falls back to
    polling the status route.  The effect's local variables (`retryCount`,
    the event source, the polling interval) are the fields of `Tracker`;
    `onComplete` and `onError` calls are recorded in order. */
module ProgressView {
  import opened Text
  import opened Pipeline

  /** The keys of `progressSteps`, in display order. */
  const ProgressSteps: seq<Step> := [ScenarioStep, ImagesStep, AudioStep, AssemblyStep, BgmStep]

  const MaxRetries: nat := 3

  const DefaultFailure := "Video generation failed"
  const PollingFailed := "進行状況の取得に失敗しました。ページを更新してください。"
  const ConnectionLost := "サーバーとの接続が切断されました。ページを更新してください。"

  /** `findIndex`: the first position holding `x` at or after `from`, or -1. */
  function FindIndex(xs: seq<Step>, x: Step, from: nat): (i: int)
    requires from <= |xs|
    ensures i == -1 || from <= i < |xs|
    ensures i >= 0 ==> xs[i] == x
    decreases |xs| - from
  {
    if from == |xs| then -1 else if xs[from] == x then from else FindIndex(xs, x, from + 1)
  }

  /** `findIndex` finds the first occurrence, and -1 means there is none. */
  lemma {:induction false} FindIndexFirst(xs: seq<Step>, x: Step, from: nat)
    requires from <= |xs|
    ensures var i := FindIndex(xs, x, from);
      && (i >= 0 ==> forall k :: from <= k < i ==> xs[k] != x)
      && (i == -1 <==> forall k :: from <= k < |xs| ==> xs[k] != x)
    decreases |xs| - from
  {
    if from < |xs| && xs[from] != x {
      FindIndexFirst(xs, x, from + 1);
    }
  }

  /** `progressSteps.findIndex((s) => s.key === step)`. */
  function StepIndex(step: Step): int {
    FindIndex(ProgressSteps, step, 0)
  }

  /** Every pipeline step but `complete` has an indicator, at its place in
      the display order. */
  lemma StepIndexes()
    ensures StepIndex(ScenarioStep) == 0 && StepIndex(ImagesStep) == 1 && StepIndex(AudioStep) == 2
    ensures StepIndex(AssemblyStep) == 3 && StepIndex(BgmStep) == 4
    ensures StepIndex(CompleteStep) == -1
  {
    var xs := ProgressSteps;
    assert xs[0] == ScenarioStep && xs[1] == ImagesStep && xs[2] == AudioStep && xs[3] == AssemblyStep && xs[4] == BgmStep;
    assert FindIndex(xs, CompleteStep, 5) == -1;
    assert FindIndex(xs, CompleteStep, 3) == -1;
    assert FindIndex(xs, CompleteStep, 1) == -1;
    assert FindIndex(xs, BgmStep, 3) == 4;
    assert FindIndex(xs, AssemblyStep, 2) == 3;
    assert FindIndex(xs, AudioStep, 1) == 2;
  }

  /** The step an event names has an indicator unless it is `complete`,
      and then the indicator is that step's. */
  lemma StepIndexShape(step: Step)
    ensures StepIndex(step) == -1 <==> step == CompleteStep
    ensures StepIndex(step) != -1 ==> 0 <= StepIndex(step) < |ProgressSteps| && ProgressSteps[StepIndex(step)] == step
  {
    StepIndexes();
  }

  /** `isCompleted` of the indicator at `index`. */
  predicate IsCompleted(index: int, current: int, status: Status) {
    index < current || (index == current && status == Completed)
  }

  /** `isCurrent` of the indicator at `index`. */
  predicate IsCurrent(index: int, current: int, status: Status) {
    index == current && status == InProgress
  }

  /** No indicator is both done and current; done indicators form a prefix
      of the list; at most one indicator is current. */
  lemma IndicatorsConsistent(current: int, status: Status)
    ensures forall i :: !(IsCompleted(i, current, status) && IsCurrent(i, current, status))
    ensures forall i, j :: i <= j && IsCompleted(j, current, status) ==> IsCompleted(i, current, status)
    ensures forall i, j :: IsCurrent(i, current, status) && IsCurrent(j, current, status) ==> i == j
  {
  }

  /** While a step is in progress, every earlier indicator is done and no
      later one is; after an error none at or after the current step is done. */
  lemma IndicatorsInProgress(current: int, status: Status)
    ensures status == InProgress ==>
      forall i :: (IsCompleted(i, current, status) <==> i < current) && (IsCurrent(i, current, status) <==> i == current)
    ensures status == Error ==> forall i :: !IsCurrent(i, current, status) && (IsCompleted(i, current, status) <==> i < current)
  {
  }

  /** `onError`'s text for a failed run: the message, or the default. */
  function FailureText(message: string): string {
    if message == "" then DefaultFailure else message
  }

  class Tracker {
    var progress: ProgressEvent
    var currentStepIndex: int
    var usePolling: bool
    /** `eventSource` is open. */
    var sseOpen: bool
    /** `pollingInterval` is set. */
    var polling: bool
    /** The one-second fallback timer of `onerror` is pending. */
    var fallbackPending: bool
    var retryCount: nat
    /** The arguments of the `onComplete` calls made so far. */
    var completions: seq<string>
    /** The arguments of the `onError` calls made so far. */
    var failures: seq<string>

    /** The indicator index names a step, the retry count stays within one
        past its limit, and polling runs, or waits to start, only up to the
        limit.  Only polling failures raise the count past one, and the event
        source is never reopened, so while it is open nothing else runs and
        the count is zero. */
    predicate Valid()
      reads this
    {
      0 <= currentStepIndex < |ProgressSteps| && retryCount <= MaxRetries + 1
      && (polling ==> retryCount <= MaxRetries)
      && (fallbackPending ==> retryCount <= MaxRetries && !polling && !sseOpen)
      && (sseOpen ==> retryCount == 0 && !polling && !fallbackPending)
    }

    /** The mounted tracker: the initial progress, then an event source,
        or polling at once when the event source cannot be created. */
    constructor(sseCreated: bool)
      ensures Valid()
      ensures progress == ProgressEvent(ScenarioStep, InProgress, 0, "Initializing...", None) && currentStepIndex == 0
      ensures retryCount == 0 && completions == [] && failures == [] && !fallbackPending
      ensures sseOpen == sseCreated && polling == !sseCreated && usePolling == !sseCreated
    {
      progress := ProgressEvent(ScenarioStep, InProgress, 0, "Initializing...", None);
      currentStepIndex := 0;
      retryCount := 0;
      completions := [];
      failures := [];
      fallbackPending := false;
      sseOpen := sseCreated;
      polling := !sseCreated;
      usePolling := !sseCreated;
    }

    /** `cleanup`: closes the event source and clears the interval. */
    method Cleanup()
      modifies this
      ensures !sseOpen && !polling
      ensures progress == old(progress) && currentStepIndex == old(currentStepIndex) && usePolling == old(usePolling)
      ensures fallbackPending == old(fallbackPending) && retryCount == old(retryCount)
      ensures completions == old(completions) && failures == old(failures)
    {
      sseOpen := false;
      polling := false;
    }

    /** `startPolling`. */
    method StartPolling()
      requires retryCount <= MaxRetries
      modifies this
      ensures usePolling && polling
      ensures progress == old(progress) && currentStepIndex == old(currentStepIndex) && sseOpen == old(sseOpen)
      ensures fallbackPending == old(fallbackPending) && retryCount == old(retryCount)
      ensures completions == old(completions) && failures == old(failures)
    {
      usePolling := true;
      polling := true;
    }

    /** `updateProgress`: the event is shown; a step with an indicator
        becomes the current one; a finished `complete` event reports the
        video, an `error` one the failure, and either ends the tracking; a
        `complete` event in any other state reports nothing. */
    method UpdateProgress(data: ProgressEvent)
      requires Valid()
      modifies this
      ensures Valid()
      ensures progress == data
      ensures data.step != CompleteStep ==> ProgressSteps[currentStepIndex] == data.step
      ensures data.step == CompleteStep ==> currentStepIndex == old(currentStepIndex)
      ensures var done := data.step == CompleteStep && data.status == Completed && Present(data.videoPath);
        completions == old(completions) + (if done then [data.videoPath.value] else [])
      ensures var failed := data.step == CompleteStep && data.status == Error;
        failures == old(failures) + (if failed then [FailureText(data.message)] else [])
      ensures if data.step == CompleteStep && (data.status == Error || (data.status == Completed && Present(data.videoPath)))
        then !sseOpen && !polling else sseOpen == old(sseOpen) && polling == old(polling)
      ensures retryCount == old(retryCount) && usePolling == old(usePolling) && fallbackPending == old(fallbackPending)
    {
      progress := data;
      var stepIndex := StepIndex(data.step);
      if stepIndex != -1 {
        currentStepIndex := stepIndex;
      }
      StepIndexShape(data.step);
      if data.step == CompleteStep {
        if data.status == Completed && Present(data.videoPath) {
          completions := completions + [data.videoPath.value];
          Cleanup();
        } else if data.status == Error {
          failures := failures + [FailureText(data.message)];
          Cleanup();
        }
      }
    }

    /** `onmessage`: a message that parses resets the retry count and
        updates the progress; one that does not changes nothing. */
    method OnMessage(parsed: Option<ProgressEvent>)
      requires Valid() && sseOpen
      modifies this
      ensures Valid()
      ensures parsed.None? ==> unchanged(this)
      ensures parsed.Some? ==> retryCount == 0 && progress == parsed.value
      ensures parsed.Some? && parsed.value.step != CompleteStep ==> ProgressSteps[currentStepIndex] == parsed.value.step
      ensures parsed.Some? && parsed.value.step == CompleteStep ==> currentStepIndex == old(currentStepIndex)
      ensures parsed.Some? ==> var d := parsed.value;
        completions == old(completions) + (if d.step == CompleteStep && d.status == Completed && Present(d.videoPath) then [d.videoPath.value] else [])
        && failures == old(failures) + (if d.step == CompleteStep && d.status == Error then [FailureText(d.message)] else [])
      ensures parsed.Some? ==> var d := parsed.value;
        if d.step == CompleteStep && (d.status == Error || (d.status == Completed && Present(d.videoPath)))
        then !sseOpen && !polling else sseOpen && !polling
      ensures usePolling == old(usePolling) && fallbackPending == old(fallbackPending)
    {
      if parsed.Some? {
        retryCount := 0;
        UpdateProgress(parsed.value);
      }
    }

    /** `onerror`: the event source is closed; below the retry limit the
        count goes up and the polling fallback is scheduled.  The source
        reports `ConnectionLost` when the count is at the limit, but the
        count is zero while the event source is open (see `Valid`), so
        that branch is never taken: the first error always falls back. */
    method OnSseError()
      requires Valid() && sseOpen
      modifies this
      ensures Valid()
      ensures !sseOpen && !polling
      ensures retryCount == 1 && fallbackPending && failures == old(failures)
      ensures completions == old(completions) && progress == old(progress) && currentStepIndex == old(currentStepIndex)
    {
      Cleanup();
      if retryCount < MaxRetries {
        retryCount := retryCount + 1;
        fallbackPending := true;
      } else {
        assert false;
      }
    }

    /** The fallback timer firing: polling starts. */
    method FallbackFires()
      requires Valid() && fallbackPending
      modifies this
      ensures Valid()
      ensures !fallbackPending && polling && usePolling
      ensures retryCount == old(retryCount) && failures == old(failures) && completions == old(completions)
      ensures progress == old(progress) && currentStepIndex == old(currentStepIndex) && !sseOpen
    {
      fallbackPending := false;
      StartPolling();
    }

    /** `pollStatus` resolving while polling: `Some` is a status that came
        back and parsed, `None` a failed request.  A `complete` status
        stops polling; every failure counts, and the one that brings the
        count to the limit reports the failure and stops. */
    method PollResult(response: Option<ProgressEvent>)
      requires Valid() && polling
      modifies this
      ensures Valid()
      ensures response.Some? ==> progress == response.value && retryCount == old(retryCount)
      ensures response.Some? && response.value.step != CompleteStep ==> ProgressSteps[currentStepIndex] == response.value.step && polling
      ensures response.Some? && response.value.step == CompleteStep ==> currentStepIndex == old(currentStepIndex) && !polling
      ensures response.Some? ==> var d := response.value;
        completions == old(completions) + (if d.step == CompleteStep && d.status == Completed && Present(d.videoPath) then [d.videoPath.value] else [])
        && failures == old(failures) + (if d.step == CompleteStep && d.status == Error then [FailureText(d.message)] else [])
      ensures response.None? ==> retryCount == old(retryCount) + 1 && progress == old(progress)
      ensures response.None? ==> currentStepIndex == old(currentStepIndex) && completions == old(completions)
      ensures !sseOpen && usePolling == old(usePolling) && fallbackPending == old(fallbackPending)
      ensures response.None? && retryCount < MaxRetries ==> polling && failures == old(failures)
      ensures response.None? && retryCount >= MaxRetries ==> !polling && failures == old(failures) + [PollingFailed]
    {
      if response.Some? {
        UpdateProgress(response.value);
        if response.value.step == CompleteStep {
          Cleanup();
        }
      } else {
        retryCount := retryCount + 1;
        if retryCount >= MaxRetries {
          failures := failures + [PollingFailed];
          Cleanup();
        }
      }
    }
  }

  /** Polling that fails every time, started from a fresh retry count,
      stops on exactly the third failure with a single report. */
  method ThreeFailuresStop(t: Tracker)
    requires t.Valid() && t.polling && t.retryCount == 0
    modifies t
    ensures !t.polling && t.retryCount == MaxRetries
    ensures t.failures == old(t.failures) + [PollingFailed]
  {
    t.PollResult(None);
    t.PollResult(None);
    t.PollResult(None);
  }
}
