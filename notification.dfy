/// How the occasion service hands a notification message on
/// (NotificationRetryBean.java and NotificationFallbackHandler.java of the
/// occasion service): a POST to the logging notification service, retried
/// twice, and then one POST to the Twitter notification service as fallback.
module Notification {
  import opened Doc
  import opened Responses
  import opened FaultTolerance

  /** @Retry(maxRetries = 2) on makeNotificationConnection. */
  const MaxRetries: nat := 2

  const NotificationKey := "notification"
  const TwitterHandleKey := "twiterHandle"  // the services agree on this spelling
  const NotificationModeKey := "notificationMode"
  const MessageKey := "message"
  const ModeMention := "mention"

  /** The arguments of makeNotificationConnection, in parameter order (the
      orchestrator itself, parameter 1, is the receiver of makeConnection). */
  datatype ConnectionArgs = ConnectionArgs(
    message: string,
    token: string,
    notification11ServiceUrl: string,
    twitterHandle: string,
    notificationServiceUrl: string)

  /** {"notification": message} */
  function LogPayload(message: string): (r: Object)
    ensures r.Keys == {NotificationKey}
    ensures r[NotificationKey] == JStr(message)
  {
    map[NotificationKey := JStr(message)]
  }

  /** {"notification": {"twiterHandle": h, "notificationMode": "mention", "message": m}} */
  function TweetPayload(handle: string, message: string): (r: Object)
    ensures r.Keys == {NotificationKey}
    ensures r[NotificationKey].JObj?
    ensures r[NotificationKey].fields.Keys == {TwitterHandleKey, NotificationModeKey, MessageKey}
    ensures r[NotificationKey].fields[TwitterHandleKey] == JStr(handle)
    ensures r[NotificationKey].fields[NotificationModeKey] == JStr(ModeMention)
    ensures r[NotificationKey].fields[MessageKey] == JStr(message)
  {
    map[NotificationKey := JObj(map[
      TwitterHandleKey := JStr(handle),
      NotificationModeKey := JStr(ModeMention),
      MessageKey := JStr(message)])]
  }

  /** The POST of the primary path. */
  function LogCall(args: ConnectionArgs): Call {
    Post(args.notificationServiceUrl, LogPayload(args.message), args.token)
  }

  /** The POST of the fallback path. */
  function TweetCall(args: ConnectionArgs): Call {
    Post(args.notification11ServiceUrl, TweetPayload(args.twitterHandle, args.message), args.token)
  }

  /** One invocation of makeNotificationConnection; `post` is what
      makeConnection did. Any HTTP response, whatever its status, is a
      logged notification: only an exception counts as a failure. */
  function LogAttempt(args: ConnectionArgs, post: Result<HttpResponse>): (r: Attempt<Call, OccasionResponse>)
    ensures r.effects == [LogCall(args)]
    ensures r.outcome.Ok? <==> post.Ok?
    ensures post.Ok? ==> r.outcome.value == OccasionResponse(Some(post.value), NotificationTypeLog, None)
    ensures post.Fail? ==> r.outcome.fault == post.fault
  {
    match post
    case Ok(response) => Attempt([LogCall(args)], Ok(OccasionResponse(Some(response), NotificationTypeLog, None)))
    case Fail(f) => Attempt([LogCall(args)], Fail(f))
  }

  /** NotificationFallbackHandler.handle: an IOException of the POST is
      swallowed and yields a tweet response without a response object; any
      other exception escapes the handler. */
  function TweetAttempt(args: ConnectionArgs, post: Result<HttpResponse>): (r: Attempt<Call, OccasionResponse>)
    ensures r.effects == [TweetCall(args)]
    ensures r.outcome.Ok? <==> post.Ok? || post.fault == Io
    ensures r.outcome.Ok? ==> r.outcome.value.notificationType == NotificationTypeTweet
    ensures r.outcome.Ok? ==> r.outcome.value.notificationResponse == (if post.Ok? then Some(post.value) else None)
  {
    match post
    case Ok(response) => Attempt([TweetCall(args)], Ok(OccasionResponse(Some(response), NotificationTypeTweet, None)))
    case Fail(Io) => Attempt([TweetCall(args)], Ok(OccasionResponse(None, NotificationTypeTweet, None)))
    case Fail(f) => Attempt([TweetCall(args)], Fail(f))
  }

  /** Invocation k of makeNotificationConnection, given what its POST did. */
  function LogAttempts(args: ConnectionArgs, primary: nat -> Result<HttpResponse>): (attempts: nat -> Attempt<Call, OccasionResponse>)
    ensures forall k: nat :: attempts(k) == LogAttempt(args, primary(k))
  {
    (k: nat) => LogAttempt(args, primary(k))
  }

  /** The guarded makeNotificationConnection as its caller sees it: `primary(k)`
      is what the k-th POST to the logging service did, `fallback` what the
      POST to the Twitter service did. */
  function MakeNotificationConnection(
    args: ConnectionArgs, primary: nat -> Result<HttpResponse>, fallback: Result<HttpResponse>)
    : (r: Attempt<Call, OccasionResponse>)
    ensures 1 <= |r.effects| <= MaxRetries + 2 && r.effects[0] == LogCall(args)
    ensures primary(0).Ok? ==>
      r == Attempt([LogCall(args)], Ok(OccasionResponse(Some(primary(0).value), NotificationTypeLog, None)))
    ensures r.outcome.Ok? ==>
      r.outcome.value.notificationType == NotificationTypeLog || r.outcome.value.notificationType == NotificationTypeTweet
    ensures r.outcome.Fail? ==>
      r.outcome == TweetAttempt(args, fallback).outcome && r.effects[|r.effects| - 1] == TweetCall(args)
  {
    var attempts := LogAttempts(args, primary);
    RetryEffects(attempts, 0, MaxRetries);
    UniformEffects(attempts, LogCall(args), 0, Invocations(attempts, 0, MaxRetries));
    WithFallback(MaxRetries, attempts, TweetAttempt(args, fallback))
  }

  /** Three failed POSTs to the logging service, then one to the Twitter
      service, whose answer decides the outcome. */
  lemma ThreeFailuresThenTweet(args: ConnectionArgs, primary: nat -> Result<HttpResponse>, fallback: Result<HttpResponse>)
    requires primary(0).Fail? && primary(1).Fail? && primary(2).Fail?
    ensures MakeNotificationConnection(args, primary, fallback)
      == Attempt([LogCall(args), LogCall(args), LogCall(args), TweetCall(args)], TweetAttempt(args, fallback).outcome)
  {
    var attempts := LogAttempts(args, primary);
    FallbackAfterExhaustion(MaxRetries, attempts, TweetAttempt(args, fallback));
    assert Effects(attempts, 2, 1) == [LogCall(args)];
    assert Effects(attempts, 1, 2) == [LogCall(args), LogCall(args)];
  }

  /** The first POST to the logging service that gets any response ends the
      request with a "logged" outcome, and the Twitter service is not called. */
  lemma LoggedOnFirstResponse(args: ConnectionArgs, primary: nat -> Result<HttpResponse>, fallback: Result<HttpResponse>, k: nat)
    requires k <= MaxRetries
    requires forall j :: 0 <= j < k ==> primary(j).Fail?
    requires primary(k).Ok?
    ensures MakeNotificationConnection(args, primary, fallback).outcome
      == Ok(OccasionResponse(Some(primary(k).value), NotificationTypeLog, None))
    ensures MakeNotificationConnection(args, primary, fallback).effects == seq(k + 1, _ => LogCall(args))
  {
    var attempts := LogAttempts(args, primary);
    NoFallbackOnSuccess(MaxRetries, attempts, TweetAttempt(args, fallback), k);
    UniformEffects(attempts, LogCall(args), 0, k + 1);
  }

  /** An exception reaches the orchestrator only when all three POSTs to the
      logging service threw and the POST to the Twitter service threw
      something other than an IOException. */
  lemma FailureNeedsEveryPathDown(args: ConnectionArgs, primary: nat -> Result<HttpResponse>, fallback: Result<HttpResponse>)
    ensures MakeNotificationConnection(args, primary, fallback).outcome.Fail?
      <==> primary(0).Fail? && primary(1).Fail? && primary(2).Fail? && fallback.Fail? && fallback.fault != Io
  {
    var attempts := LogAttempts(args, primary);
    if primary(0).Fail? && primary(1).Fail? && primary(2).Fail? {
      FallbackAfterExhaustion(MaxRetries, attempts, TweetAttempt(args, fallback));
    } else if primary(0).Ok? {
      NoFallbackOnSuccess(MaxRetries, attempts, TweetAttempt(args, fallback), 0);
    } else if primary(1).Ok? {
      NoFallbackOnSuccess(MaxRetries, attempts, TweetAttempt(args, fallback), 1);
    } else {
      NoFallbackOnSuccess(MaxRetries, attempts, TweetAttempt(args, fallback), 2);
    }
  }

  /** The POSTs one notification request makes: one to the logging service per
      invocation (one to three), then one to the Twitter service exactly when
      all three threw. */
  lemma NotificationCalls(args: ConnectionArgs, primary: nat -> Result<HttpResponse>, fallback: Result<HttpResponse>)
    ensures var n := Invocations(LogAttempts(args, primary), 0, MaxRetries);
      1 <= n <= MaxRetries + 1
      && MakeNotificationConnection(args, primary, fallback).effects
         == seq(n, _ => LogCall(args))
            + (if primary(0).Fail? && primary(1).Fail? && primary(2).Fail? then [TweetCall(args)] else [])
  {
    var attempts := LogAttempts(args, primary);
    RetryEffects(attempts, 0, MaxRetries);
    UniformEffects(attempts, LogCall(args), 0, Invocations(attempts, 0, MaxRetries));
    FailureNeedsEveryPathDown(args, primary, fallback);
    if primary(0).Fail? && primary(1).Fail? && primary(2).Fail? {
      RetryAllFail(attempts, 0, MaxRetries);
    }
  }
}
