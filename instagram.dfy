/** The three-call publish protocol of src/lib/instagram.ts: create a media
    container, poll its processing status at most twenty times, publish it.
    The Graph API is a `GraphApi` object that records every request sent to
    it and answers the k-th request with `replies(k)`, an oracle standing for
    whatever the remote service (or the network) returns. */
module Instagram {
  import opened Common

  const MaxAttempts: nat := 20

  /** The three Graph API calls. */
  datatype Call = Create | Poll | Publish

  /** The errors the client itself throws. Keeping them as values keeps
      their message texts out of the proofs; `Message` renders them. */
  datatype IgError =
    | MissingUserId
    | MissingAccessToken
    | CallFailed(call: Call, remoteMessage: Option<string>, httpStatus: nat)
    | NoContainerId
    | NoMediaId
    | ProcessingFailed(description: Option<string>)
    | TimedOut

  /** Why a publish stopped: an error of the client's own, or whatever
      `fetch` or the body parser was rejected with. */
  datatype Failure = IgFailure(error: IgError) | FetchFailure(thrown: Thrown)

  function CallFailedText(call: Call): string {
    match call
    case Create => "Failed to create media container"
    case Poll => "Failed to poll container status"
    case Publish => "Failed to publish media"
  }

  /** The `message` of the `Error` the client throws. A failed call carries
      the remote `error.message` when there is one, else the step and the
      HTTP status. */
  function Message(e: IgError): (m: string)
    ensures e.CallFailed? && e.remoteMessage.Some? ==> m == e.remoteMessage.value
    ensures e.CallFailed? && e.remoteMessage.None? ==>
              m == CallFailedText(e.call) + " (status " + NatToString(e.httpStatus) + ")"
    ensures e.ProcessingFailed? && e.description.Some? ==> m == e.description.value
  {
    match e
    case MissingUserId => "Missing IG_USER_ID environment variable"
    case MissingAccessToken => "Missing IG_ACCESS_TOKEN environment variable"
    case CallFailed(call, remote, status) =>
      OrElse(remote, CallFailedText(call) + " (status " + NatToString(status) + ")")
    case NoContainerId => "Instagram API did not return a container id"
    case NoMediaId => "Instagram API did not return a media id"
    case ProcessingFailed(description) => OrElse(description, "Instagram reported an error processing the video")
    case TimedOut => "Timed out while waiting for Instagram to process the video"
  }

  /** The value a caller's `catch` receives. */
  function AsThrown(f: Failure): (t: Thrown)
    ensures f.IgFailure? ==> t == ErrorThrown(Message(f.error))
    ensures f.FetchFailure? ==> t == f.thrown
  {
    match f
    case IgFailure(e) => ErrorThrown(Message(e))
    case FetchFailure(t) => t
  }

  /** `IG_USER_ID` and `IG_ACCESS_TOKEN`, read once at start-up. */
  datatype IgConfig = IgConfig(userId: Option<string>, accessToken: Option<string>)

  predicate ConfigOk(cfg: IgConfig) {
    Present(cfg.userId) && Present(cfg.accessToken)
  }

  /** `assertConfig`: the user id is checked before the token. */
  function AssertConfig(cfg: IgConfig): (r: Outcome<IgError>)
    ensures r.Pass? <==> ConfigOk(cfg)
    ensures r.Fail? ==> r.error == (if Present(cfg.userId) then MissingAccessToken else MissingUserId)
  {
    if !Present(cfg.userId) then Fail(MissingUserId)
    else if !Present(cfg.accessToken) then Fail(MissingAccessToken)
    else Pass
  }

  // ---------------------------------------------------------------------
  // Requests and replies

  /** A request by what distinguishes it: the endpoint (the user's `media`
      edge, the container, the user's `media_publish` edge) and the values
      that go into its parameters. `FormParams` renders the parameters. */
  datatype Request =
    | CreateCall(userId: string, accessToken: string, videoUrl: string, caption: Option<string>)
    | StatusCall(containerId: string, accessToken: string)
    | PublishCall(userId: string, accessToken: string, creationId: string)

  type Param = (string, string)

  /** A `status_code` string as the poll loop tells it apart. */
  datatype StatusCode = FinishedCode | ErrorCode | OtherCode(text: string)

  /** Reads a `status_code` string: only "FINISHED" and "ERROR" are told
      apart, and `OtherCode` never holds either of them. */
  function ReadStatusCode(s: string): StatusCode {
    if s == "FINISHED" then FinishedCode else if s == "ERROR" then ErrorCode else OtherCode(s)
  }

  /** Only the exact strings FINISHED and ERROR are told apart; any other
      code is kept as it is. */
  lemma ReadStatusCodeIff(s: string)
    ensures ReadStatusCode(s) == FinishedCode <==> s == "FINISHED"
    ensures ReadStatusCode(s) == ErrorCode <==> s == "ERROR"
    ensures ReadStatusCode(s).OtherCode? ==> ReadStatusCode(s).text == s && s != "FINISHED" && s != "ERROR"
  {
  }

  /** The parts of a JSON reply the client reads: `error.message`, `id`,
      the raw `status_code` string and `status.description`. */
  datatype Payload = Payload(
    errorMessage: Option<string>,
    id: Option<string>,
    statusCode: Option<string>,
    statusDescription: Option<string>)

  /** A settled `fetch` with its parsed body, or the value it (or the body
      parser) was rejected with. */
  datatype Reply =
    | Response(ok: bool, httpStatus: nat, payload: Payload)
    | Rejected(thrown: Thrown)

  /** The request's parameters, in the order the source builds them: the
      form body of the two POST calls, the query string of the status call. */
  function FormParams(req: Request): (ps: seq<Param>)
    ensures ("access_token", req.accessToken) in ps
    ensures req.CreateCall? ==>
              && ("media_type", "REELS") in ps && ("share_to_feed", "true") in ps
              && ("video_url", req.videoUrl) in ps
              && (forall v :: ("caption", v) in ps <==> req.caption == Some(v))
    ensures req.StatusCall? ==> ("fields", "status_code,status") in ps
    ensures req.PublishCall? ==> ("creation_id", req.creationId) in ps
  {
    match req
    case CreateCall(_, token, videoUrl, caption) =>
      [("access_token", token), ("video_url", videoUrl), ("share_to_feed", "true"), ("media_type", "REELS")]
      + (if caption.Some? then [("caption", caption.value)] else [])
    case StatusCall(_, token) => [("access_token", token), ("fields", "status_code,status")]
    case PublishCall(_, token, creationId) => [("access_token", token), ("creation_id", creationId)]
  }

  /** The create request carries the caption only when it is truthy. */
  function CreateRequest(cfg: IgConfig, videoUrl: string, caption: Option<string>): (req: Request)
    requires ConfigOk(cfg)
    ensures req.CreateCall? && (req.caption.Some? <==> Present(caption))
    ensures req.caption.Some? ==> req.caption == caption
  {
    CreateCall(cfg.userId.value, cfg.accessToken.value, videoUrl, if Present(caption) then caption else None)
  }

  function PollRequest(cfg: IgConfig, containerId: string): Request
    requires ConfigOk(cfg)
  {
    StatusCall(containerId, cfg.accessToken.value)
  }

  function PublishRequest(cfg: IgConfig, containerId: string): Request
    requires ConfigOk(cfg)
  {
    PublishCall(cfg.userId.value, cfg.accessToken.value, containerId)
  }

  function Repeat(r: Request, n: nat): (rs: seq<Request>)
    ensures |rs| == n
  {
    if n == 0 then [] else Repeat(r, n - 1) + [r]
  }

  /** Reads the reply to a create or publish call: the new object's id, or
      why the call throws. */
  function ReadCreated(reply: Reply, call: Call): (r: Result<string, Failure>)
    requires call != Poll
    ensures r.Ok? <==> reply.Response? && reply.ok && Present(reply.payload.id)
    ensures r.Ok? ==> r.value == reply.payload.id.value
  {
    match reply
    case Rejected(t) => Err(FetchFailure(t))
    case Response(ok, httpStatus, payload) =>
      if !ok then Err(IgFailure(CallFailed(call, payload.errorMessage, httpStatus)))
      else if !Present(payload.id) then Err(IgFailure(if call == Create then NoContainerId else NoMediaId))
      else Ok(payload.id.value)
  }

  /** Why a create or publish call throws: the rejection itself, the call's
      failure with the remote message and HTTP status, or the missing id. */
  lemma ReadCreatedErrors(reply: Reply, call: Call)
    requires call != Poll
    ensures var r := ReadCreated(reply, call);
            && (reply.Rejected? ==> r == Err(FetchFailure(reply.thrown)))
            && (reply.Response? && !reply.ok ==>
                  r == Err(IgFailure(CallFailed(call, reply.payload.errorMessage, reply.httpStatus))))
            && (reply.Response? && reply.ok && !Present(reply.payload.id) ==>
                  r == Err(IgFailure(if call == Create then NoContainerId else NoMediaId)))
  {
  }

  // ---------------------------------------------------------------------
  // The remote service

  class GraphApi {
    /** The reply to the k-th request ever sent. */
    const replies: nat -> Reply
    /** Every request sent so far, oldest first. */
    var requests: seq<Request>

    constructor (replies: nat -> Reply)
      ensures this.replies == replies && requests == []
    {
      this.replies := replies;
      requests := [];
    }

    /** One `fetch`. */
    method Send(req: Request) returns (reply: Reply)
      modifies this
      ensures requests == old(requests) + [req]
      ensures reply == replies(|old(requests)|)
    {
      reply := replies(|requests|);
      requests := requests + [req];
    }
  }

  // ---------------------------------------------------------------------
  // Polling

  datatype PollStep = Finished | Processing | Stopped(failure: Failure)

  /** What one status reply tells the poll loop to do. */
  function ReadPoll(reply: Reply): PollStep {
    match reply
    case Rejected(t) => Stopped(FetchFailure(t))
    case Response(ok, httpStatus, payload) =>
      if !ok then Stopped(IgFailure(CallFailed(Poll, payload.errorMessage, httpStatus)))
      else
        match payload.statusCode
        case None => Processing
        case Some(code) =>
          match ReadStatusCode(code)
          case FinishedCode => Finished
          case ErrorCode => Stopped(IgFailure(ProcessingFailed(payload.statusDescription)))
          case OtherCode(_) => Processing
  }

  /** A status reply ends the loop successfully exactly when it is ok and its
      `status_code` is the string FINISHED; it fails the loop on a rejected
      fetch, a non-ok response or the string ERROR; anything else, a missing
      `status_code` included, means "still processing". */
  lemma ReadPollIff(reply: Reply)
    ensures ReadPoll(reply).Finished? <==>
              reply.Response? && reply.ok && reply.payload.statusCode == Some("FINISHED")
    ensures ReadPoll(reply).Processing? <==>
              && reply.Response? && reply.ok
              && (reply.payload.statusCode.None?
                  || (reply.payload.statusCode.value != "FINISHED" && reply.payload.statusCode.value != "ERROR"))
    ensures reply.Response? && reply.ok && reply.payload.statusCode == Some("ERROR") ==>
              ReadPoll(reply) == Stopped(IgFailure(ProcessingFailed(reply.payload.statusDescription)))
    ensures reply.Response? && !reply.ok ==>
              ReadPoll(reply) == Stopped(IgFailure(CallFailed(Poll, reply.payload.errorMessage, reply.httpStatus)))
  {
  }

  /** What the reply to the poll with 0-based attempt number `j` says, when
      the first poll is request number `base`. */
  function StepAt(replies: nat -> Reply, base: nat, j: nat): PollStep {
    ReadPoll(replies(base + j))
  }

  /** How the poll loop ends, and after how many status requests. */
  datatype PollRun = PollRun(outcome: Outcome<Failure>, polls: nat)

  /** The poll loop entered at attempt `attempt`. */
  function PollFrom(replies: nat -> Reply, base: nat, attempt: nat): (r: PollRun)
    requires attempt <= MaxAttempts
    ensures attempt <= r.polls <= MaxAttempts
    ensures r.outcome.Pass? ==> attempt < r.polls
    decreases MaxAttempts - attempt
  {
    if attempt == MaxAttempts then PollRun(Fail(IgFailure(TimedOut)), MaxAttempts)
    else
      match StepAt(replies, base, attempt)
      case Finished => PollRun(Pass, attempt + 1)
      case Stopped(f) => PollRun(Fail(f), attempt + 1)
      case Processing => PollFrom(replies, base, attempt + 1)
  }

  /** The loop passes only on a FINISHED reply, and every reply before the
      one that ends it said "still processing". */
  lemma {:induction false} PollShape(replies: nat -> Reply, base: nat, attempt: nat)
    requires attempt <= MaxAttempts
    ensures var r := PollFrom(replies, base, attempt);
            && (r.outcome.Pass? ==> StepAt(replies, base, r.polls - 1).Finished?)
            && forall j | attempt <= j < r.polls - 1 :: StepAt(replies, base, j).Processing?
    decreases MaxAttempts - attempt
  {
    if attempt < MaxAttempts && StepAt(replies, base, attempt).Processing? {
      PollShape(replies, base, attempt + 1);
    }
  }

  /** Replies that only say "still processing" do not change where the loop
      ends. */
  lemma {:induction false} PollSkipsProcessing(replies: nat -> Reply, base: nat, a: nat, k: nat)
    requires a <= k <= MaxAttempts
    requires forall j | a <= j < k :: StepAt(replies, base, j).Processing?
    ensures PollFrom(replies, base, a) == PollFrom(replies, base, k)
    decreases k - a
  {
    if a < k {
      PollSkipsProcessing(replies, base, a + 1, k);
    }
  }

  /** Polling succeeds exactly when some attempt below twenty reports
      FINISHED and every earlier reply was an ok, non-terminal status. */
  lemma PollSucceedsIff(replies: nat -> Reply, base: nat)
    ensures PollFrom(replies, base, 0).outcome.Pass? <==>
            exists k | 0 <= k < MaxAttempts ::
              StepAt(replies, base, k).Finished? && forall j | 0 <= j < k :: StepAt(replies, base, j).Processing?
  {
    var run := PollFrom(replies, base, 0);
    if run.outcome.Pass? {
      var k := run.polls - 1;
      PollShape(replies, base, 0);
      assert StepAt(replies, base, k).Finished?;
    } else if k :| 0 <= k < MaxAttempts && StepAt(replies, base, k).Finished?
                   && forall j | 0 <= j < k :: StepAt(replies, base, j).Processing? {
      PollSkipsProcessing(replies, base, 0, k);
    }
  }

  /** An ERROR status, a failed call or a rejected fetch ends polling at once
      with that error. */
  lemma PollStopsAtFirstError(replies: nat -> Reply, base: nat, k: nat)
    requires k < MaxAttempts && StepAt(replies, base, k).Stopped?
    requires forall j | 0 <= j < k :: StepAt(replies, base, j).Processing?
    ensures PollFrom(replies, base, 0) == PollRun(Fail(StepAt(replies, base, k).failure), k + 1)
  {
    PollSkipsProcessing(replies, base, 0, k);
  }

  /** A first status reply that is ok and says FINISHED ends polling at
      once, after a single request. */
  lemma FinishedOnFirstPoll(replies: nat -> Reply, base: nat)
    requires replies(base).Response? && replies(base).ok && replies(base).payload.statusCode == Some("FINISHED")
    ensures PollFrom(replies, base, 0) == PollRun(Pass, 1)
  {
    ReadPollIff(replies(base));
    assert StepAt(replies, base, 0) == Finished;
  }

  /** Twenty non-terminal replies in a row end in the time-out error. */
  lemma PollTimesOut(replies: nat -> Reply, base: nat)
    requires forall j | 0 <= j < MaxAttempts :: StepAt(replies, base, j).Processing?
    ensures PollFrom(replies, base, 0) == PollRun(Fail(IgFailure(TimedOut)), MaxAttempts)
  {
    PollSkipsProcessing(replies, base, 0, MaxAttempts);
  }

  /** `pollContainerStatus`: at most twenty status requests, stopping at the
      first FINISHED, ERROR or failed call. The five-second pause between
      attempts is not modelled. */
  method PollContainerStatus(api: GraphApi, cfg: IgConfig, containerId: string) returns (r: Outcome<Failure>)
    requires ConfigOk(cfg)
    modifies api
    ensures var run := PollFrom(api.replies, |old(api.requests)|, 0);
            r == run.outcome && api.requests == old(api.requests) + Repeat(PollRequest(cfg, containerId), run.polls)
  {
    ghost var base := |api.requests|;
    var attempt: nat := 0;
    while attempt < MaxAttempts
      invariant attempt <= MaxAttempts
      invariant api.requests == old(api.requests) + Repeat(PollRequest(cfg, containerId), attempt)
      invariant PollFrom(api.replies, base, 0) == PollFrom(api.replies, base, attempt)
    {
      assert |api.requests| == base + attempt;
      var reply := api.Send(PollRequest(cfg, containerId));
      assert reply == api.replies(base + attempt);
      assert Repeat(PollRequest(cfg, containerId), attempt) + [PollRequest(cfg, containerId)]
          == Repeat(PollRequest(cfg, containerId), attempt + 1);
      var step := ReadPoll(reply);
      assert step == StepAt(api.replies, base, attempt);
      if step.Finished? {
        assert PollFrom(api.replies, base, attempt) == PollRun(Pass, attempt + 1);
        return Pass;
      }
      if step.Stopped? {
        assert PollFrom(api.replies, base, attempt) == PollRun(Fail(step.failure), attempt + 1);
        return Fail(step.failure);
      }
      attempt := attempt + 1;
    }
    r := Fail(IgFailure(TimedOut));
  }

  // ---------------------------------------------------------------------
  // The whole protocol

  datatype PublishResult = PublishResult(containerId: string, mediaId: string)

  /** The outcome of one publish and the request log after it. */
  datatype PublishRun = PublishRun(result: Result<PublishResult, Failure>, log: seq<Request>)

  /** `publishInstagramVideo` as a function of the configuration, the video,
      the caption, the replies and the requests `sent` before it started (the
      next request gets reply number |sent|). */
  function PublishSpec(cfg: IgConfig, videoUrl: string, caption: Option<string>,
                       replies: nat -> Reply, sent: seq<Request>): PublishRun
  {
    if !ConfigOk(cfg) then PublishRun(Err(IgFailure(AssertConfig(cfg).error)), sent)
    else
      var log := sent + [CreateRequest(cfg, videoUrl, caption)];
      match ReadCreated(replies(|sent|), Create)
      case Err(f) => PublishRun(Err(f), log)
      case Ok(containerId) => PollThenPublish(cfg, containerId, PollFrom(replies, |log|, 0), replies, log)
  }

  /** The protocol once the container exists and the poll loop has run as
      `poll`: the status requests it sent, then the publish step if it
      passed. */
  function PollThenPublish(cfg: IgConfig, containerId: string, poll: PollRun, replies: nat -> Reply, sent: seq<Request>): PublishRun
    requires ConfigOk(cfg)
  {
    var log := sent + Repeat(PollRequest(cfg, containerId), poll.polls);
    if poll.outcome.Fail? then PublishRun(Err(poll.outcome.error), log)
    else PublishStep(cfg, containerId, replies, log)
  }

  /** The protocol once polling saw FINISHED: one publish request. */
  function PublishStep(cfg: IgConfig, containerId: string, replies: nat -> Reply, sent: seq<Request>): PublishRun
    requires ConfigOk(cfg)
  {
    var log := sent + [PublishRequest(cfg, containerId)];
    match ReadCreated(replies(|sent|), Publish)
    case Err(f) => PublishRun(Err(f), log)
    case Ok(mediaId) => PublishRun(Ok(PublishResult(containerId, mediaId)), log)
  }

  lemma {:induction false} RepeatAt(r: Request, n: nat, i: nat)
    requires i < n
    ensures Repeat(r, n)[i] == r
  {
    if i < n - 1 {
      RepeatAt(r, n - 1, i);
    }
  }

  /** Missing configuration fails before any request is sent. */
  lemma ConfigFailsFast(cfg: IgConfig, videoUrl: string, caption: Option<string>, replies: nat -> Reply, sent: seq<Request>)
    requires !ConfigOk(cfg)
    ensures var run := PublishSpec(cfg, videoUrl, caption, replies, sent);
            run.log == sent && run.result == Err(IgFailure(AssertConfig(cfg).error))
  {
  }

  /** The publish step sends one publish request and succeeds exactly when
      its reply carries a media id. */
  lemma PublishStepRun(cfg: IgConfig, containerId: string, replies: nat -> Reply, sent: seq<Request>)
    requires ConfigOk(cfg)
    ensures var published := ReadCreated(replies(|sent|), Publish);
            var run := PublishStep(cfg, containerId, replies, sent);
            && run.log == sent + [PublishRequest(cfg, containerId)]
            && (published.Ok? ==> run.result == Ok(PublishResult(containerId, published.value)))
            && (published.Err? ==> run.result == Err(published.error))
  {
  }

  /** After the container exists, the protocol succeeds exactly when polling
      passed and the publish reply carries a media id; the log grows by the
      status requests and then by one publish request exactly when polling
      passed. */
  lemma PollThenPublishRun(cfg: IgConfig, containerId: string, poll: PollRun, replies: nat -> Reply, sent: seq<Request>)
    requires ConfigOk(cfg)
    ensures var run := PollThenPublish(cfg, containerId, poll, replies, sent);
            var polled := sent + Repeat(PollRequest(cfg, containerId), poll.polls);
            var published := ReadCreated(replies(|sent| + poll.polls), Publish);
            && (poll.outcome.Pass? && published.Ok? ==> run.result == Ok(PublishResult(containerId, published.value)))
            && (!(poll.outcome.Pass? && published.Ok?) ==> run.result.Err?)
            && run.log == (if poll.outcome.Pass? then polled + [PublishRequest(cfg, containerId)] else polled)
  {
    var polled := sent + Repeat(PollRequest(cfg, containerId), poll.polls);
    if poll.outcome.Pass? {
      assert |polled| == |sent| + poll.polls;
      PublishStepRun(cfg, containerId, replies, polled);
    }
  }

  /** The requests go out strictly as create, then polls of the created
      container (at most twenty), then at most one publish of that same
      container, and the publish is sent only after a poll saw FINISHED. */
  lemma RequestsInOrder(cfg: IgConfig, videoUrl: string, caption: Option<string>, replies: nat -> Reply, sent: seq<Request>)
    requires ConfigOk(cfg)
    ensures var run := PublishSpec(cfg, videoUrl, caption, replies, sent);
            var n := |sent|;
            var created := ReadCreated(replies(n), Create);
            var poll := PollFrom(replies, n + 1, 0);
            && n + 1 <= |run.log| <= n + MaxAttempts + 2
            && run.log[..n] == sent
            && run.log[n] == CreateRequest(cfg, videoUrl, caption)
            && (created.Err? ==> |run.log| == n + 1)
            && (created.Ok? ==>
                  && |run.log| >= n + 1 + poll.polls
                  && (forall i | n + 1 <= i <= n + poll.polls :: run.log[i] == PollRequest(cfg, created.value))
                  && (|run.log| == n + poll.polls + 2 <==> poll.outcome.Pass?)
                  && (poll.outcome.Pass? ==> run.log[n + poll.polls + 1] == PublishRequest(cfg, created.value)))
  {
    var n := |sent|;
    var created := ReadCreated(replies(n), Create);
    var log := sent + [CreateRequest(cfg, videoUrl, caption)];
    var runLog := PublishSpec(cfg, videoUrl, caption, replies, sent).log;
    if created.Ok? {
      var cid := created.value;
      var poll := PollFrom(replies, n + 1, 0);
      var polls := Repeat(PollRequest(cfg, cid), poll.polls);
      assert |log| == n + 1;
      assert runLog == PollThenPublish(cfg, cid, poll, replies, log).log;
      PollThenPublishRun(cfg, cid, poll, replies, log);
      assert runLog[..n + 1 + poll.polls] == log + polls;
      assert runLog[..n + 1] == log by {
        assert (log + polls)[..n + 1] == log;
      }
      forall i | n + 1 <= i <= n + poll.polls
        ensures runLog[i] == PollRequest(cfg, cid)
      {
        RepeatAt(PollRequest(cfg, cid), poll.polls, i - n - 1);
        assert runLog[i] == (log + polls)[i];
      }
    } else {
      assert runLog == log;
    }
    assert runLog[..n] == log[..n];
  }

  /** The protocol succeeds exactly when create returns an id, polling sees
      FINISHED and publish returns an id; the result pairs the two ids. */
  lemma PublishSucceedsIff(cfg: IgConfig, videoUrl: string, caption: Option<string>, replies: nat -> Reply, sent: seq<Request>)
    ensures var run := PublishSpec(cfg, videoUrl, caption, replies, sent);
            var n := |sent|;
            var created := ReadCreated(replies(n), Create);
            var poll := PollFrom(replies, n + 1, 0);
            var published := ReadCreated(replies(n + 1 + poll.polls), Publish);
            && (ConfigOk(cfg) && created.Ok? && poll.outcome.Pass? && published.Ok? ==>
                  run.result == Ok(PublishResult(created.value, published.value)))
            && (!(ConfigOk(cfg) && created.Ok? && poll.outcome.Pass? && published.Ok?) ==> run.result.Err?)
  {
    var run := PublishSpec(cfg, videoUrl, caption, replies, sent);
    if ConfigOk(cfg) {
      var created := ReadCreated(replies(|sent|), Create);
      var log := sent + [CreateRequest(cfg, videoUrl, caption)];
      if created.Ok? {
        var poll := PollFrom(replies, |sent| + 1, 0);
        assert |log| == |sent| + 1;
        assert run == PollThenPublish(cfg, created.value, poll, replies, log);
        PollThenPublishRun(cfg, created.value, poll, replies, log);
      } else {
        assert run.result == Err(created.error);
      }
    } else {
      assert run.result.Err?;
    }
  }

  /** `publishInstagramVideo`: check the configuration, then create, poll and
      publish, stopping at the first step that throws. */
  method PublishInstagramVideo(api: GraphApi, cfg: IgConfig, videoUrl: string, caption: Option<string>)
    returns (result: Result<PublishResult, Failure>)
    modifies api
    ensures var run := PublishSpec(cfg, videoUrl, caption, api.replies, old(api.requests));
            result == run.result && api.requests == run.log
  {
    var check := AssertConfig(cfg);
    if check.Fail? {
      return Err(IgFailure(check.error));
    }
    var created := CreateMediaContainer(api, cfg, videoUrl, caption);
    if created.Err? {
      return Err(created.error);
    }
    var polled := PollContainerStatus(api, cfg, created.value);
    if polled.Fail? {
      return Err(polled.error);
    }
    var published := PublishContainer(api, cfg, created.value);
    if published.Err? {
      return Err(published.error);
    }
    result := Ok(PublishResult(created.value, published.value));
  }

  /** `createMediaContainer`: one create request, whose reply gives the
      container id. */
  method CreateMediaContainer(api: GraphApi, cfg: IgConfig, videoUrl: string, caption: Option<string>)
    returns (r: Result<string, Failure>)
    requires ConfigOk(cfg)
    modifies api
    ensures api.requests == old(api.requests) + [CreateRequest(cfg, videoUrl, caption)]
    ensures r == ReadCreated(api.replies(|old(api.requests)|), Create)
  {
    var reply := api.Send(CreateRequest(cfg, videoUrl, caption));
    r := ReadCreated(reply, Create);
  }

  /** `publishContainer`: one publish request, whose reply gives the media id. */
  method PublishContainer(api: GraphApi, cfg: IgConfig, containerId: string)
    returns (r: Result<string, Failure>)
    requires ConfigOk(cfg)
    modifies api
    ensures api.requests == old(api.requests) + [PublishRequest(cfg, containerId)]
    ensures r == ReadCreated(api.replies(|old(api.requests)|), Publish)
  {
    var reply := api.Send(PublishRequest(cfg, containerId));
    r := ReadCreated(reply, Publish);
  }
}
