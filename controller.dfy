/** The App component's generation controller: the state handleGenerate
    updates through its setters, and the call itself, split into the
    pre-flight checks, the simulated path and the live path. */
module Controller {
  import opened Wrappers
  import opened Validation
  import opened Payloads
  import opened Remote
  import opened Pipeline

  /** The error message a call leaves shown: every call replaces it. */
  function ErrorAfter(outcome: Outcome): string
  {
    match outcome
    case Rejected(m) => m
    case Failed(m) => m
    case Generated(_) => ""
    case Pending => ""
  }

  /** The gallery after a call: a generated result is put in front. */
  function GalleryAfter(outcome: Outcome, before: seq<string>): seq<string>
  {
    if outcome.Generated? then [outcome.url] + before else before
  }

  class Controller {
    var progress: int
    var isGenerating: bool
    var finalVideoUrl: string
    var errorMsg: string
    var gallery: seq<string>

    /** Every value progress has been set to, in order. */
    ghost var ProgressLog: seq<int>
    /** Every creation request sent to the remote service, in order. */
    ghost var Submitted: seq<Payload>

    constructor ()
      ensures progress == 0 && !isGenerating
      ensures finalVideoUrl == "" && errorMsg == "" && gallery == []
      ensures ProgressLog == [] && Submitted == []
    {
      progress := 0;
      isGenerating := false;
      finalVideoUrl := "";
      errorMsg := "";
      gallery := [];
      ProgressLog := [];
      Submitted := [];
    }

    method SetProgress(p: int)
      modifies this`progress, this`ProgressLog
      ensures progress == p && ProgressLog == old(ProgressLog) + [p]
    {
      progress := p;
      ProgressLog := ProgressLog + [p];
    }

    /** The deferred reset that ends every run that reaches a terminal state. */
    method Settle()
      modifies this`progress, this`ProgressLog, this`isGenerating
      ensures !isGenerating && progress == 0 && ProgressLog == old(ProgressLog) + [0]
    {
      isGenerating := false;
      SetProgress(0);
    }

    method HandleGenerate(req: Request, encode: string -> string,
                          submit: SubmitResponse, polls: seq<PollResponse>)
      returns (outcome: Outcome)
      modifies this
      ensures outcome == GenerateOutcome(req, encode, submit, polls)
      ensures errorMsg == ErrorAfter(outcome)
      ensures gallery == GalleryAfter(outcome, old(gallery))
      ensures ProgressLog == old(ProgressLog) + RunTrace(req, submit, polls)
                             + (if outcome.Rejected? || outcome.Pending? then [] else [0])
      ensures Submitted == old(Submitted)
                           + (if outcome.Rejected? || req.isDemoMode then [] else [BuildPayload(req)])
      // a rejected request changes nothing but the error message
      ensures outcome.Rejected? ==>
                progress == old(progress) && isGenerating == old(isGenerating)
                && finalVideoUrl == old(finalVideoUrl)
      ensures !outcome.Rejected? ==> finalVideoUrl == (if outcome.Generated? then outcome.url else "")
      ensures outcome.Generated? || outcome.Failed? ==> !isGenerating && progress == 0
      ensures outcome.Pending? ==>
                isGenerating && progress == LastOr(0, RunTrace(req, submit, polls))
    {
      var problem := Validate(req);
      if problem.Some? {
        errorMsg := problem.value;
        return Rejected(problem.value);
      }
      errorMsg := "";
      isGenerating := true;
      finalVideoUrl := "";
      if req.isDemoMode {
        outcome := RunDemo(req.prompt, encode);
      } else {
        outcome := RunLive(req, submit, polls);
      }
    }

    /** The simulated path: a fixed progress script, then an image URL built
        from the prompt. */
    method RunDemo(prompt: string, encode: string -> string) returns (outcome: Outcome)
      modifies this
      ensures outcome == Generated(DemoUrl(prompt, encode))
      ensures finalVideoUrl == outcome.url && gallery == [outcome.url] + old(gallery)
      ensures errorMsg == old(errorMsg) && Submitted == old(Submitted)
      ensures ProgressLog == old(ProgressLog) + DemoSchedule + [0]
      ensures !isGenerating && progress == 0
    {
      SetProgress(10);
      for i := 1 to 4
        invariant ProgressLog == old(ProgressLog) + DemoSchedule[..i]
        invariant errorMsg == old(errorMsg) && Submitted == old(Submitted) && gallery == old(gallery)
      {
        assert i == 1 || i == 2 || i == 3;
        assert DemoSchedule[..i + 1] == DemoSchedule[..i] + [10 + i * 25];
        SetProgress(10 + i * 25);
      }
      var url := DemoUrl(prompt, encode);
      SetProgress(100);
      finalVideoUrl := url;
      gallery := [url] + gallery;
      outcome := Generated(url);
      Settle();
    }

    /** The live path: submit the job, poll until a terminal state or until
        the responses run out, then store the result or the error. */
    method RunLive(req: Request, submit: SubmitResponse, polls: seq<PollResponse>)
      returns (outcome: Outcome)
      requires finalVideoUrl == "" && errorMsg == "" && isGenerating
      modifies this`errorMsg, this`finalVideoUrl, this`gallery, this`progress,
               this`ProgressLog, this`isGenerating, this`Submitted
      ensures outcome == LiveOutcome(submit, polls)
      ensures errorMsg == ErrorAfter(outcome)
      ensures gallery == GalleryAfter(outcome, old(gallery))
      ensures finalVideoUrl == (if outcome.Generated? then outcome.url else "")
      ensures Submitted == old(Submitted) + [BuildPayload(req)]
      ensures ProgressLog == old(ProgressLog) + LiveTrace(submit, polls)
                             + (if outcome.Pending? then [] else [0])
      ensures outcome.Pending? ==>
                isGenerating && progress == LastOr(0, LiveTrace(submit, polls))
      ensures !outcome.Pending? ==> !isGenerating && progress == 0
    {
      SetProgress(DispatchProgress);
      Submitted := Submitted + [BuildPayload(req)];
      var accepted := AcceptSubmission(submit);
      if accepted.Err? {
        outcome := Abandon(accepted.message);
      } else {
        AppendAssoc(old(ProgressLog), [DispatchProgress], PollingTrace(polls));
        outcome := PollAndConclude(polls);
      }
    }

    /** The catch and finally blocks: show the error, then reset. */
    method Abandon(message: string) returns (outcome: Outcome)
      modifies this`errorMsg, this`progress, this`ProgressLog, this`isGenerating
      ensures outcome == Failed(message) && errorMsg == message
      ensures !isGenerating && progress == 0 && ProgressLog == old(ProgressLog) + [0]
    {
      errorMsg := message;
      outcome := Failed(message);
      Settle();
    }

    /** The accepted job: progress 20, the poll loop, then its conclusion. */
    method PollAndConclude(polls: seq<PollResponse>) returns (outcome: Outcome)
      requires finalVideoUrl == "" && errorMsg == "" && isGenerating
      modifies this`errorMsg, this`finalVideoUrl, this`gallery, this`progress,
               this`ProgressLog, this`isGenerating
      ensures outcome == Resolution(RunPolls(SubmittedProgress, polls, 0).end)
      ensures errorMsg == ErrorAfter(outcome)
      ensures gallery == GalleryAfter(outcome, old(gallery))
      ensures finalVideoUrl == (if outcome.Generated? then outcome.url else "")
      ensures ProgressLog == old(ProgressLog) + PollingTrace(polls)
                             + (if outcome.Pending? then [] else [0])
      ensures outcome.Pending? ==> isGenerating && progress == LastOr(0, PollingTrace(polls))
      ensures !outcome.Pending? ==> !isGenerating && progress == 0
    {
      SetProgress(SubmittedProgress);
      var end := PollUntilDone(polls);
      outcome := Conclude(end);
    }

    /** After the poll loop: report the failure, report a success without a
        URL, or store the result; then reset, unless still waiting. */
    method Conclude(end: LoopEnd) returns (outcome: Outcome)
      requires finalVideoUrl == "" && errorMsg == "" && isGenerating
      modifies this`errorMsg, this`finalVideoUrl, this`gallery, this`progress,
               this`ProgressLog, this`isGenerating
      ensures outcome == Resolution(end)
      ensures errorMsg == ErrorAfter(outcome)
      ensures gallery == GalleryAfter(outcome, old(gallery))
      ensures finalVideoUrl == (if outcome.Generated? then outcome.url else "")
      ensures ProgressLog == old(ProgressLog) + (if outcome.Generated? then [DoneProgress] else [])
                             + (if outcome.Pending? then [] else [0])
      ensures outcome.Pending? ==> isGenerating && progress == old(progress)
      ensures !outcome.Pending? ==> !isGenerating && progress == 0
    {
      match end {
        case Aborted(m) =>
          errorMsg := m;
          outcome := Failed(m);
        case StillPolling =>
          return Pending;
        case Resolved(finalUrl) =>
          if finalUrl == "" {
            errorMsg := NoVideoUrlMsg;
            outcome := Failed(NoVideoUrlMsg);
          } else {
            SetProgress(DoneProgress);
            finalVideoUrl := finalUrl;
            gallery := [finalUrl] + gallery;
            outcome := Generated(finalUrl);
          }
      }
      Settle();
    }

    /** The poll loop: read status responses in order until one is terminal
        or they run out, nudging progress while the job runs. `p` mirrors
        the progress field, the value the functional update reads. */
    method PollUntilDone(polls: seq<PollResponse>) returns (end: LoopEnd)
      modifies this`progress, this`ProgressLog
      ensures end == RunPolls(old(progress), polls, 0).end
      ensures ProgressLog == old(ProgressLog) + RunPolls(old(progress), polls, 0).progressSets
      ensures progress == LastOr(old(progress), RunPolls(old(progress), polls, 0).progressSets)
    {
      ghost var spec := RunPolls(progress, polls, 0);
      ghost var sets: seq<int> := [];
      var p := progress;
      var isCompleted := false;
      var finalUrl := "";
      var failure: Option<string> := None;
      var i := 0;
      while !isCompleted && failure.None? && i < |polls|
        invariant 0 <= i <= |polls|
        invariant progress == p && ProgressLog == old(ProgressLog) + sets
        invariant p == LastOr(old(progress), sets)
        invariant !(isCompleted && failure.Some?)
        invariant !isCompleted && failure.None? ==>
                    spec.end == RunPolls(p, polls, i).end
                    && spec.progressSets == sets + RunPolls(p, polls, i).progressSets
        invariant isCompleted ==> spec.end == Resolved(finalUrl) && spec.progressSets == sets
        invariant failure.Some? ==> spec.end == Aborted(failure.value) && spec.progressSets == sets
        decreases |polls| - i
      {
        var step := Interpret(polls[i]);
        match step {
          case Unrecognised =>
          case Running =>
            AppendAssoc(sets, [Nudge(p)], RunPolls(Nudge(p), polls, i + 1).progressSets);
            AppendAssoc(old(ProgressLog), sets, [Nudge(p)]);
            p := Nudge(p);
            SetProgress(p);
            sets := sets + [p];
          case Completed(url) =>
            isCompleted := true;
            finalUrl := url;
            p := SuccessProgress;
            AppendAssoc(old(ProgressLog), sets, [p]);
            SetProgress(p);
            sets := sets + [p];
          case PollFailed(m) =>
            failure := Some(m);
        }
        i := i + 1;
      }
      if failure.Some? {
        end := Aborted(failure.value);
      } else if isCompleted {
        end := Resolved(finalUrl);
      } else {
        end := StillPolling;
      }
    }
  }
}
