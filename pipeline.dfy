/** The controller's run as a function of its inputs: the poll loop over a
    finite sequence of status responses, the outcome of a whole
    handleGenerate call and the progress values it shows on the way. */
module Pipeline {
  import opened Wrappers
  import opened Validation
  import opened Payloads
  import opened Remote

  /** How the poll loop ends. `StillPolling` means the responses ran out before
      the job reached a terminal state: the loop would poll again. */
  datatype LoopEnd = Resolved(finalUrl: string) | Aborted(message: string) | StillPolling

  /** How the loop ended and every progress value it set, in order. */
  datatype PollRun = PollRun(end: LoopEnd, progressSets: seq<int>)

  /** The loop end a decisive response leads to. */
  function EndOf(step: PollStep): LoopEnd
  {
    match step
    case Running => StillPolling
    case Unrecognised => StillPolling
    case Completed(url) => Resolved(url)
    case PollFailed(m) => Aborted(m)
  }

  const SuccessProgress := 95
  const SubmittedProgress := 20
  const DispatchProgress := 10
  const DoneProgress := 100

  /** The poll loop on the responses from index `i` on, starting from
      `progress`: a waiting or processing job nudges the progress and polls
      again, an unrecognised state polls again without setting anything,
      success sets 95 and stops, a failure stops without touching the
      progress. */
  function RunPolls(progress: int, polls: seq<PollResponse>, i: nat): (r: PollRun)
    requires i <= |polls|
    ensures |r.progressSets| <= |polls| - i
    decreases |polls| - i
  {
    if i == |polls| then PollRun(StillPolling, [])
    else
      match Interpret(polls[i])
      case Running =>
        var rest := RunPolls(Nudge(progress), polls, i + 1);
        PollRun(rest.end, [Nudge(progress)] + rest.progressSets)
      case Unrecognised => RunPolls(progress, polls, i + 1)
      case Completed(url) => PollRun(Resolved(url), [SuccessProgress])
      case PollFailed(m) => PollRun(Aborted(m), [])
  }

  /** Progress during polling never goes down, stays at most 85 while the
      job runs, and reaches 95 exactly when the loop ends in success, as its
      last value. */
  lemma {:induction false} RunPollsProgress(progress: int, polls: seq<PollResponse>, i: nat)
    requires i <= |polls| && progress <= NudgeCeiling
    ensures NonDecreasing([progress] + RunPolls(progress, polls, i).progressSets)
    ensures var s := RunPolls(progress, polls, i).progressSets;
            forall k | 0 <= k < |s| :: s[k] <= NudgeCeiling || (k == |s| - 1 && s[k] == SuccessProgress)
    ensures var r := RunPolls(progress, polls, i);
            r.end.Resolved? <==> r.progressSets != [] && r.progressSets[|r.progressSets| - 1] == SuccessProgress
    decreases |polls| - i
  {
    if i < |polls| {
      match Interpret(polls[i])
      case Unrecognised =>
        RunPollsProgress(progress, polls, i + 1);
      case Running =>
        var n := Nudge(progress);
        RunPollsProgress(n, polls, i + 1);
        var rest := RunPolls(n, polls, i + 1).progressSets;
        assert RunPolls(progress, polls, i).progressSets == [n] + rest;
        NonDecreasingJoin([progress], [n] + rest);
      case Completed(_) =>
      case PollFailed(_) =>
    }
  }

  /** How many of the responses in `polls[i..j]` report a waiting or
      processing job. */
  function RunningCount(polls: seq<PollResponse>, i: nat, j: nat): nat
    requires i <= j <= |polls|
    decreases j - i
  {
    if i == j then 0
    else (if Interpret(polls[i]).Running? then 1 else 0) + RunningCount(polls, i + 1, j)
  }

  /** The loop is decided by the first response that does not let it go on:
      it ends the way that response says, after one nudge per earlier
      waiting or processing response (plus the 95 of a success). */
  lemma {:induction false} RunPollsFirstDecisive(progress: int, polls: seq<PollResponse>, i: nat, j: nat)
    requires i <= j < |polls| && !Interpret(polls[j]).Continues()
    requires forall k | i <= k < j :: Interpret(polls[k]).Continues()
    ensures RunPolls(progress, polls, i).end == EndOf(Interpret(polls[j]))
    ensures |RunPolls(progress, polls, i).progressSets|
            == RunningCount(polls, i, j) + (if Interpret(polls[j]).Completed? then 1 else 0)
    decreases j - i
  {
    if i < j {
      if Interpret(polls[i]).Running? {
        RunPollsFirstDecisive(Nudge(progress), polls, i + 1, j);
      } else {
        RunPollsFirstDecisive(progress, polls, i + 1, j);
      }
    }
  }

  /** The loop is still waiting exactly when every response let it go on,
      and then it has nudged the progress once per waiting or processing
      response. */
  lemma {:induction false} RunPollsStillPolling(progress: int, polls: seq<PollResponse>, i: nat)
    requires i <= |polls|
    ensures RunPolls(progress, polls, i).end.StillPolling? <==>
            forall k | i <= k < |polls| :: Interpret(polls[k]).Continues()
    ensures RunPolls(progress, polls, i).end.StillPolling? ==>
            |RunPolls(progress, polls, i).progressSets| == RunningCount(polls, i, |polls|)
    decreases |polls| - i
  {
    if i < |polls| {
      if Interpret(polls[i]).Running? {
        RunPollsStillPolling(Nudge(progress), polls, i + 1);
      } else {
        RunPollsStillPolling(progress, polls, i + 1);
      }
    }
  }

  /** A response with a state the controller does not recognise sets no
      progress: the loop goes on from the next response exactly as if it
      had not been there. */
  lemma UnrecognisedSetsNothing(progress: int, polls: seq<PollResponse>, i: nat)
    requires i < |polls| && Interpret(polls[i]).Unrecognised?
    ensures RunPolls(progress, polls, i) == RunPolls(progress, polls, i + 1)
    ensures RunPolls(progress, polls, i) == RunPolls(progress, polls[..i] + polls[i + 1..], i)
  {
    RunPollsShifted(progress, polls, polls[..i] + polls[i + 1..], i + 1, i);
  }

  /** The loop over `polls` from `i` equals the loop over `polls'` from `i'`
      when the remaining responses are the same. */
  lemma {:induction false} RunPollsShifted(progress: int, polls: seq<PollResponse>, polls': seq<PollResponse>,
                                           i: nat, i': nat)
    requires i <= |polls| && i' <= |polls'| && polls[i..] == polls'[i'..]
    ensures RunPolls(progress, polls, i) == RunPolls(progress, polls', i')
    decreases |polls| - i
  {
    if i < |polls| {
      assert polls[i] == polls[i..][0] == polls'[i'];
      assert polls[i + 1..] == polls[i..][1..] == polls'[i'..][1..] == polls'[i' + 1..];
      RunPollsShifted(Nudge(progress), polls, polls', i + 1, i' + 1);
      RunPollsShifted(progress, polls, polls', i + 1, i' + 1);
    }
  }

  /** A loop that ends in success ends on the first successful response,
      with that response's URL. */
  lemma {:induction false} RunPollsResolvedAt(progress: int, polls: seq<PollResponse>, i: nat)
    requires i <= |polls| && RunPolls(progress, polls, i).end.Resolved?
    ensures exists j | i <= j < |polls| ::
              Interpret(polls[j]) == Completed(RunPolls(progress, polls, i).end.finalUrl)
              && forall k | i <= k < j :: Interpret(polls[k]).Continues()
    decreases |polls| - i
  {
    if Interpret(polls[i]).Running? {
      RunPollsResolvedAt(Nudge(progress), polls, i + 1);
    } else if Interpret(polls[i]).Unrecognised? {
      RunPollsResolvedAt(progress, polls, i + 1);
    } else {
      assert Interpret(polls[i]) == Completed(RunPolls(progress, polls, i).end.finalUrl);
    }
  }

  /** What one handleGenerate call leads to. */
  datatype Outcome =
    | Rejected(message: string)   // a pre-flight check failed; nothing else happened
    | Generated(url: string)      // a result was stored and added to the gallery
    | Failed(message: string)     // the run started and ended with an error
    | Pending                     // the job has not reached a terminal state yet

  const NoVideoUrlMsg := "Result returned but no video URL found."

  /** What the end of the poll loop means for the call: a success whose
      URL is empty is still an error. */
  function Resolution(end: LoopEnd): (r: Outcome)
    ensures !r.Rejected?
    ensures r.Generated? <==> end.Resolved? && end.finalUrl != ""
    ensures r.Generated? ==> r.url == end.finalUrl
    ensures r.Pending? <==> end.StillPolling?
    ensures end.Aborted? ==> r == Failed(end.message)
    ensures end.Resolved? && end.finalUrl == "" ==> r == Failed(NoVideoUrlMsg)
  {
    match end
    case StillPolling => Pending
    case Aborted(m) => Failed(m)
    case Resolved(url) => if url == "" then Failed(NoVideoUrlMsg) else Generated(url)
  }

  /** The live path: submission, polling, and the check that a successful
      job actually returned a URL. */
  function LiveOutcome(submit: SubmitResponse, polls: seq<PollResponse>): Outcome
  {
    match AcceptSubmission(submit)
    case Err(m) => Failed(m)
    case Ok(_) => Resolution(RunPolls(SubmittedProgress, polls, 0).end)
  }

  function GenerateOutcome(req: Request, encode: string -> string,
                           submit: SubmitResponse, polls: seq<PollResponse>): Outcome
  {
    match Validate(req)
    case Some(m) => Rejected(m)
    case None =>
      if req.isDemoMode then Generated(DemoUrl(req.prompt, encode))
      else LiveOutcome(submit, polls)
  }

  /** The progress values of the simulated run. */
  const DemoSchedule: seq<int> := [10, 35, 60, 85, 100]

  /** Every progress value the live path sets after the job was accepted. */
  function PollingTrace(polls: seq<PollResponse>): seq<int>
  {
    var run := RunPolls(SubmittedProgress, polls, 0);
    [SubmittedProgress] + run.progressSets
    + (if Resolution(run.end).Generated? then [DoneProgress] else [])
  }

  /** Every progress value the live path sets before the final reset. */
  function LiveTrace(submit: SubmitResponse, polls: seq<PollResponse>): seq<int>
  {
    if AcceptSubmission(submit).Err? then [DispatchProgress]
    else [DispatchProgress] + PollingTrace(polls)
  }

  /** Every progress value a handleGenerate call sets before the final reset. */
  function RunTrace(req: Request, submit: SubmitResponse, polls: seq<PollResponse>): seq<int>
  {
    if Validate(req).Some? then []
    else if req.isDemoMode then DemoSchedule
    else LiveTrace(submit, polls)
  }

  /** The live trace of an accepted job climbs from 10 and ends at 100
      exactly when the job produced a result, below it otherwise. */
  lemma PollingTraceProgress(submit: SubmitResponse, polls: seq<PollResponse>)
    requires AcceptSubmission(submit).Ok?
    ensures var t := LiveTrace(submit, polls);
            NonDecreasing(t) && t[0] == DispatchProgress
            && (LiveOutcome(submit, polls).Generated? <==> t[|t| - 1] == DoneProgress)
            && t[|t| - 1] <= DoneProgress
  {
    var run := RunPolls(SubmittedProgress, polls, 0);
    RunPollsProgress(SubmittedProgress, polls, 0);
    var m := [SubmittedProgress] + run.progressSets;
    NonDecreasingBetweenEnds(m);
    var tail := if Resolution(run.end).Generated? then [DoneProgress] else [];
    NonDecreasingJoin(m, tail);
    NonDecreasingJoin([DispatchProgress], m + tail);
    assert LiveTrace(submit, polls) == [DispatchProgress] + (m + tail);
  }

  /** Progress observed during one call never goes down and stays within
      10..100. */
  lemma RunTraceProgress(req: Request, submit: SubmitResponse, polls: seq<PollResponse>)
    ensures NonDecreasing(RunTrace(req, submit, polls))
    ensures forall k | 0 <= k < |RunTrace(req, submit, polls)| ::
              DispatchProgress <= RunTrace(req, submit, polls)[k] <= DoneProgress
  {
    if Validate(req).None? && !req.isDemoMode {
      var t := LiveTrace(submit, polls);
      if AcceptSubmission(submit).Ok? {
        PollingTraceProgress(submit, polls);
      }
      NonDecreasingBetweenEnds(t);
    }
  }

  /** A call that produces a result ends its progress at exactly 100; a
      call sets no progress at all exactly when it is rejected up front. */
  lemma RunTraceEnds(req: Request, encode: string -> string,
                     submit: SubmitResponse, polls: seq<PollResponse>)
    ensures GenerateOutcome(req, encode, submit, polls).Generated? ==>
              LastOr(0, RunTrace(req, submit, polls)) == DoneProgress
    ensures GenerateOutcome(req, encode, submit, polls).Rejected? <==> RunTrace(req, submit, polls) == []
  {
    if Validate(req).None? && !req.isDemoMode && AcceptSubmission(submit).Ok? {
      PollingTraceProgress(submit, polls);
    }
  }

  /** The simulated run sets 10, 35, 60, 85, 100: strictly increasing and
      ending at 100, and its result is always shown as an image. */
  lemma DemoRunProgress(req: Request, encode: string -> string,
                        submit: SubmitResponse, polls: seq<PollResponse>)
    requires req.isDemoMode && Validate(req).None?
    ensures var t := RunTrace(req, submit, polls);
            (forall i, j | 0 <= i < j < |t| :: t[i] < t[j]) && t[0] == 10 && t[|t| - 1] == 100
    ensures GenerateOutcome(req, encode, submit, polls).Generated?
    ensures RendersAsImage(GenerateOutcome(req, encode, submit, polls).url)
  {
    DemoUrlRendersAsImage(req.prompt, encode);
  }

  /** A job that reports success without a usable URL, including a result
      document that does not decode, ends in the "no video URL" error rather
      than a decoding error. */
  lemma HollowSuccess(req: Request, encode: string -> string,
                      submit: SubmitResponse, polls: seq<PollResponse>, j: nat)
    requires Validate(req).None? && !req.isDemoMode && AcceptSubmission(submit).Ok?
    requires j < |polls| && forall k | 0 <= k < j :: Interpret(polls[k]).Continues()
    requires polls[j].PollReply? && polls[j].code == 200 && polls[j].hasData && polls[j].state == "success"
    requires FinalUrl(polls[j].resultUrls) == ""
    ensures GenerateOutcome(req, encode, submit, polls) == Failed(NoVideoUrlMsg)
  {
    RunPollsFirstDecisive(SubmittedProgress, polls, 0, j);
  }

  /** A live result is the first URL of the first successful status
      response, and it is never empty. */
  lemma LiveResultIsFirstSuccessUrl(submit: SubmitResponse, polls: seq<PollResponse>)
    requires LiveOutcome(submit, polls).Generated?
    ensures exists j | 0 <= j < |polls| ::
              Interpret(polls[j]) == Completed(LiveOutcome(submit, polls).url)
              && forall k | 0 <= k < j :: Interpret(polls[k]).Continues()
    ensures LiveOutcome(submit, polls).url != ""
  {
    RunPollsResolvedAt(SubmittedProgress, polls, 0);
  }

  /** Two "processing" responses and then a success: the first URL of the
      result document is the result, and progress climbs to 100. */
  lemma ExampleLiveSuccess(req: Request, encode: string -> string)
    requires Validate(req).None? && !req.isDemoMode
    ensures var submit := SubmitReply(true, "", 200, Some("abc"), None);
            var running := PollReply(200, true, "processing", None, None, None);
            var done := PollReply(200, true, "success", Some(["http://x/video.mp4"]), None, None);
            GenerateOutcome(req, encode, submit, [running, running, done]) == Generated("http://x/video.mp4")
            && RunTrace(req, submit, [running, running, done]) == [10, 20, 25, 30, 95, 100]
  {
  }

  /** A "fail" response ends the run with the remote failure message. */
  lemma ExampleGpuFailure(req: Request, encode: string -> string)
    requires Validate(req).None? && !req.isDemoMode
    ensures var submit := SubmitReply(true, "", 200, Some("abc"), None);
            var failed := PollReply(200, true, "fail", None, Some("gpu oom"), None);
            GenerateOutcome(req, encode, submit, [failed]) == Failed("GPU Error: gpu oom")
  {
  }

  /** A "queued" response, a state the controller does not recognise, sets
      no progress: the run still goes 10, 20, 95, 100. */
  lemma ExampleUnrecognisedState(req: Request, encode: string -> string)
    requires Validate(req).None? && !req.isDemoMode
    ensures var submit := SubmitReply(true, "", 200, Some("abc"), None);
            var queued := PollReply(200, true, "queued", None, None, None);
            var done := PollReply(200, true, "success", Some(["u"]), None, None);
            GenerateOutcome(req, encode, submit, [queued, done]) == Generated("u")
            && RunTrace(req, submit, [queued, done]) == [10, 20, 95, 100]
  {
  }
}
