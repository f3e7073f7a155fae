/** How the controller reads the remote job service's answers: the creation
    response, each status response, the progress nudge and the extraction of
    the result URL. Network calls and JSON decoding are replaced by these
    already-decoded response values. */
module Remote {
  import opened Wrappers

  /** The outcome of the creation call. `SubmitThrew` is a call (or a read of
      its body) that raised; its message reaches the user verbatim. */
  datatype SubmitResponse =
    | SubmitThrew(error: string)
    | SubmitReply(ok: bool, text: string, code: int, taskId: Option<string>, msg: Option<string>)

  const ApiErrorPrefix := "Kie AI API Error: "
  const InitFailedPrefix := "Init Failed: "
  const UnknownError := "Unknown error"

  /** The task id of an accepted creation call, or the message it fails with. */
  function AcceptSubmission(resp: SubmitResponse): (r: Result<string>)
    ensures r.Ok? <==> resp.SubmitReply? && resp.ok && resp.code == 200 && Truthy(resp.taskId)
    ensures r.Ok? ==> r.value == resp.taskId.value && r.value != ""
    ensures resp.SubmitThrew? ==> r == Err(resp.error)
    ensures resp.SubmitReply? && !resp.ok ==> r == Err(ApiErrorPrefix + resp.text)
    ensures resp.SubmitReply? && resp.ok && r.Err? ==>
              r.message == InitFailedPrefix + OrElse(resp.msg, UnknownError)
  {
    match resp
    case SubmitThrew(e) => Err(e)
    case SubmitReply(ok, text, code, taskId, msg) =>
      if !ok then Err(ApiErrorPrefix + text)
      else if code != 200 || !Truthy(taskId) then Err(InitFailedPrefix + OrElse(msg, UnknownError))
      else Ok(taskId.value)
  }

  /** One status response. `resultUrls` is the outcome of decoding the
      nested result document: None when it does not decode or holds no
      `resultUrls` list. */
  datatype PollResponse =
    | PollThrew(error: string)
    | PollReply(
        code: int,
        hasData: bool,
        state: string,
        resultUrls: Option<seq<string>>,
        failMsg: Option<string>,
        msg: Option<string>)

  const PollingErrorPrefix := "Polling Error: "
  const GpuErrorPrefix := "GPU Error: "
  const GenerationFailed := "Generation failed."

  /** What a single status response tells the poll loop. `Running` is a job
      reported as waiting or processing, which nudges the progress;
      `Unrecognised` is any other state, which no branch handles, so the loop
      polls again without touching the progress. */
  datatype PollStep = Running | Unrecognised | Completed(finalUrl: string) | PollFailed(message: string)
  {
    /** The loop goes on to the next response. */
    predicate Continues()
    {
      Running? || Unrecognised?
    }
  }

  /** The states the controller reports as a job still in progress. */
  predicate InProgressState(state: string)
  {
    state == "waiting" || state == "processing"
  }

  /** The URL the job produced: the first entry of the decoded list, or ""
      when the document did not decode, the list is empty, or its first
      entry is empty. */
  function FinalUrl(resultUrls: Option<seq<string>>): (r: string)
    ensures r == "" <==> resultUrls.None? || resultUrls.value == [] || resultUrls.value[0] == ""
    ensures r != "" ==> r == resultUrls.value[0]
  {
    match resultUrls
    case None => ""
    case Some(urls) => if urls == [] then "" else urls[0]
  }

  function Interpret(p: PollResponse): (r: PollStep)
    ensures r.Completed? <==> p.PollReply? && p.code == 200 && p.hasData && p.state == "success"
    ensures r.PollFailed? <==> p.PollThrew? || p.code != 200 || !p.hasData || p.state == "fail"
    ensures r.Running? <==> p.PollReply? && p.code == 200 && p.hasData && InProgressState(p.state)
    ensures r.Unrecognised? <==>
              p.PollReply? && p.code == 200 && p.hasData && !InProgressState(p.state)
              && p.state != "success" && p.state != "fail"
    ensures r.Completed? ==> r.finalUrl == FinalUrl(p.resultUrls)
    ensures p.PollThrew? ==> r == PollFailed(p.error)
    ensures p.PollReply? && (p.code != 200 || !p.hasData) ==>
              r == PollFailed(PollingErrorPrefix + Shown(p.msg))
    ensures p.PollReply? && p.code == 200 && p.hasData && p.state == "fail" ==>
              r == PollFailed(GpuErrorPrefix + OrElse(p.failMsg, GenerationFailed))
  {
    match p
    case PollThrew(e) => PollFailed(e)
    case PollReply(code, hasData, state, resultUrls, failMsg, msg) =>
      if code == 200 && hasData then
        if InProgressState(state) then Running
        else if state == "success" then Completed(FinalUrl(resultUrls))
        else if state == "fail" then PollFailed(GpuErrorPrefix + OrElse(failMsg, GenerationFailed))
        else Unrecognised
      else PollFailed(PollingErrorPrefix + Shown(msg))
  }

  /** The ceiling a still-running job's progress is nudged up to. */
  const NudgeCeiling := 85

  /** `Math.min(prev + 5, 85)`: the progress update on a still-running job. */
  function Nudge(prev: int): (r: int)
    ensures r <= NudgeCeiling
    ensures prev <= NudgeCeiling ==> prev <= r <= prev + 5
    ensures r == prev + 5 || r == NudgeCeiling
  {
    if prev + 5 < NudgeCeiling then prev + 5 else NudgeCeiling
  }
}
