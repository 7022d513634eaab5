/// The Twitter notification service's delivery path
/// (NotificationRetryBean.java and NotificationFallbackHandler.java of the
/// notification service, version 1.1): the message is cut into status updates
/// of at most 140 characters, each is posted, the whole message is sent to the
/// recipient as a direct message, and the call is retried twice and then
/// written to the fallback log.
module Tweet {
  import opened Doc
  import opened FaultTolerance

  /** The longest status update the service posts. */
  const MaxLength := 140
  /** Where the backward search for a space to cut at begins. */
  const SearchFrom := 132
  /** Appended to a status that is continued. */
  const Ellipsis := " ..."
  /** Prefixed to a status that continues the previous one. */
  const Continued := "... "
  /** @Retry(maxRetries = 2) on tweet. */
  const MaxRetries: nat := 2
  const TweetError := "Tweet error"

  // ---------------------------------------------------------------------------
  // preProcessMessage

  /** message.lastIndexOf(" ", 132): where the next cut falls. */
  function Cut(m: string): (i: int)
    ensures -1 <= i < |m| && i <= SearchFrom
    ensures i >= 0 ==> m[i] == ' '
    ensures forall j :: i < j <= SearchFrom && 0 <= j < |m| ==> m[j] != ' '
  {
    LastIndexOf(m, ' ', SearchFrom)
  }

  predicate IsContinuation(c: string) {
    |c| >= 4 && c[..4] == Continued
  }

  /** The status cut off at the space at i. */
  function Chunk(m: string, i: int): (r: string)
    requires 0 <= i < |m|
    ensures |r| == i + 4
  {
    m[..i] + Ellipsis
  }

  /** What is left to post after cutting at the space at i. */
  function Step(m: string, i: int): (r: string)
    requires 0 <= i < |m|
    ensures |r| == |m| + 3 - i
    ensures IsContinuation(r)
  {
    Continued + m[i + 1..]
  }

  /** A continuation always has a space at index 3, so the search finds at
      least that one. */
  lemma ContinuationSpace(c: string)
    requires IsContinuation(c)
    ensures Cut(c) >= 3
  {
    assert c[3] == c[..4][3] == ' ';
  }

  /** The loop of preProcessMessage ends once it has reached continuation c:
      each cut must be after index 3, since a cut at 3 reproduces c. */
  predicate ContinuationEnds(c: string)
    decreases |c|
  {
    |c| <= MaxLength
    || (var i := Cut(c); i > 3 && ContinuationEnds(Step(c, i)))
  }

  /** The messages on which preProcessMessage returns or throws instead of
      looping forever. */
  predicate SplitTerminates(m: string) {
    |m| <= MaxLength
    || Cut(m) < 0
    || ContinuationEnds(Step(m, Cut(m)))
  }

  function ContinuationChunks(c: string): (r: seq<string>)
    requires ContinuationEnds(c)
    ensures |r| >= 1
    decreases |c|
  {
    if |c| <= MaxLength then [c]
    else
      var i := Cut(c);
      [Chunk(c, i)] + ContinuationChunks(Step(c, i))
  }

  /** preProcessMessage: a message of at most 140 characters is posted as it
      is; a longer one is cut at the last space at or before index 132, and
      with no such space substring(0, -1) throws. */
  function SplitMessage(m: string): (r: Result<seq<string>>)
    requires SplitTerminates(m)
    ensures r.Fail? <==> |m| > MaxLength && Cut(m) < 0
    ensures r.Fail? ==> r.fault == IndexOutOfBounds
    ensures r.Ok? ==> |r.value| >= 1
  {
    if |m| <= MaxLength then Ok([m])
    else
      var i := Cut(m);
      if i < 0 then Fail(IndexOutOfBounds)
      else Ok([Chunk(m, i)] + ContinuationChunks(Step(m, i)))
  }

  /** The first cut of a long message that has a space to cut at. */
  lemma FirstCut(m: string)
    requires SplitTerminates(m) && |m| > MaxLength && Cut(m) >= 0
    ensures ContinuationEnds(Step(m, Cut(m)))
    ensures SplitMessage(m) == Ok([Chunk(m, Cut(m))] + ContinuationChunks(Step(m, Cut(m))))
  {
  }

  /** A further cut of a long continuation on which the loop ends. */
  lemma NextCut(c: string)
    requires IsContinuation(c) && ContinuationEnds(c) && |c| > MaxLength
    ensures Cut(c) > 3 && ContinuationEnds(Step(c, Cut(c)))
    ensures ContinuationChunks(c) == [Chunk(c, Cut(c))] + ContinuationChunks(Step(c, Cut(c)))
  {
    ContinuationSpace(c);
  }

  /** What the loop of preProcessMessage knows while it is still splitting:
      at first m is the message itself; afterwards m is a continuation whose
      cuts complete the statuses collected so far. */
  ghost predicate Splitting(message: string, messages: seq<string>, m: string, first: bool)
    requires SplitTerminates(message)
  {
    if first then m == message && messages == []
    else IsContinuation(m) && ContinuationEnds(m) && SplitMessage(message) == Ok(messages + ContinuationChunks(m))
  }

  /** A short remainder is the last status. */
  lemma LastStatus(message: string, messages: seq<string>, m: string, first: bool)
    requires SplitTerminates(message) && Splitting(message, messages, m, first)
    requires |m| <= MaxLength
    ensures SplitMessage(message) == Ok(messages + [m])
  {
    if first {
      assert messages + [m] == [m];
    } else {
      assert ContinuationChunks(m) == [m];
    }
  }

  /** A long remainder is cut at its last space before index 133; only the
      message itself can lack one, and a continuation is cut after index 3. */
  lemma CutStep(message: string, messages: seq<string>, m: string, first: bool)
    requires SplitTerminates(message) && Splitting(message, messages, m, first)
    requires |m| > MaxLength
    ensures Cut(m) < 0 ==> first && SplitMessage(message) == Fail(IndexOutOfBounds)
    ensures Cut(m) >= 0 ==>
      (first || Cut(m) > 3) && Splitting(message, messages + [Chunk(m, Cut(m))], Step(m, Cut(m)), false)
  {
    var i := Cut(m);
    if !first {
      NextCut(m);
    }
    if i >= 0 {
      var rest := ContinuationChunks(Step(m, i));
      if first {
        FirstCut(m);
        assert messages + [Chunk(m, i)] == [Chunk(m, i)];
      } else {
        assert messages + ([Chunk(m, i)] + rest) == (messages + [Chunk(m, i)]) + rest;
      }
    }
  }

  /** The loop as written, with its two consecutive ifs. */
  method PreProcessMessage(message: string) returns (r: Result<seq<string>>)
    requires SplitTerminates(message)
    ensures r == SplitMessage(message)
  {
    var messages: seq<string> := [];
    var split := true;
    var m := message;
    ghost var first := true;
    while split
      invariant first ==> m == message && split
      invariant split ==> Splitting(message, messages, m, first)
      invariant !split ==> SplitMessage(message) == Ok(messages)
      decreases split, if first then |message| + 4 else |m|
    {
      if |m| <= MaxLength {
        LastStatus(message, messages, m, first);
        messages := messages + [m];
        split := false;
      }
      if |m| > MaxLength {
        CutStep(message, messages, m, first);
        var i := Cut(m);
        if i < 0 {
          return Fail(IndexOutOfBounds);
        }
        messages := messages + [m[..i] + Ellipsis];
        m := Continued + m[i + 1..];
      }
      first := false;
    }
    return Ok(messages);
  }

  // ---------------------------------------------------------------------------
  // What the cut promises

  function DropSuffix(s: string): string {
    if |s| >= 4 then s[..|s| - 4] else s
  }

  function DropPrefix(s: string): string {
    if |s| >= 4 then s[4..] else s
  }

  /** Reading the statuses one after the other, as a follower would. */
  function Unsplit(cs: seq<string>): string
    decreases |cs|
  {
    if |cs| == 0 then ""
    else if |cs| == 1 then cs[0]
    else DropSuffix(cs[0]) + " " + DropPrefix(Unsplit(cs[1..]))
  }

  /** Every status fits in 140 characters; every status but the last is cut
      at or before index 132 and so has at most 136 with its " ...", and ends
      with " ...". */
  predicate WellFormedChunks(cs: seq<string>) {
    && (forall k :: 0 <= k < |cs| ==> |cs[k]| <= MaxLength)
    && (forall k :: 0 <= k < |cs| - 1 ==> |cs[k]| <= SearchFrom + |Ellipsis|)
    && (forall k :: 0 <= k < |cs| - 1 ==> |cs[k]| >= 4 && cs[k][|cs[k]| - 4..] == Ellipsis)
  }

  /** Cutting at the space at i: the status is at most 136 characters and
      ends with " ...", and joining it to what follows gives m back. */
  lemma CutFacts(m: string, i: int)
    requires 0 <= i < |m| && i <= SearchFrom && m[i] == ' '
    ensures |Chunk(m, i)| <= SearchFrom + |Ellipsis|
    ensures |Chunk(m, i)| >= 4 && Chunk(m, i)[|Chunk(m, i)| - 4..] == Ellipsis
    ensures i >= 4 ==> Chunk(m, i)[..4] == m[..4]
    ensures DropSuffix(Chunk(m, i)) + " " + DropPrefix(Step(m, i)) == m
  {
    var c := Chunk(m, i);
    assert c[|c| - 4..] == Ellipsis;
    assert DropSuffix(c) == m[..i];
    assert DropPrefix(Step(m, i)) == m[i + 1..];
    assert m[..i] + " " + m[i + 1..] == m;
  }

  /** A status that is cut, put in front of well-formed statuses. */
  lemma WellFormedCons(c: string, rest: seq<string>)
    requires |c| <= SearchFrom + |Ellipsis| && |c| >= 4 && c[|c| - 4..] == Ellipsis
    requires WellFormedChunks(rest)
    ensures WellFormedChunks([c] + rest)
  {
    var cs := [c] + rest;
    assert forall k :: 1 <= k < |cs| ==> cs[k] == rest[k - 1];
  }

  lemma {:induction false} ContinuationChunksFacts(c: string)
    requires ContinuationEnds(c) && IsContinuation(c)
    ensures WellFormedChunks(ContinuationChunks(c))
    ensures forall k :: 0 <= k < |ContinuationChunks(c)| ==> IsContinuation(ContinuationChunks(c)[k])
    ensures Unsplit(ContinuationChunks(c)) == c
    decreases |c|
  {
    if |c| > MaxLength {
      var i := Cut(c);
      ContinuationSpace(c);
      var s := Step(c, i);
      ContinuationChunksFacts(s);
      CutFacts(c, i);
      var rest := ContinuationChunks(s);
      var cs := ContinuationChunks(c);
      assert cs == [Chunk(c, i)] + rest;
      assert cs[1..] == rest;
      WellFormedCons(Chunk(c, i), rest);
    }
  }

  /** The statuses of a long message: its first cut followed by the cuts of
      what follows. */
  lemma {:induction false} LongMessageChunks(m: string, i: int)
    requires |m| > MaxLength && i == Cut(m) && i >= 0
    requires ContinuationEnds(Step(m, i))
    ensures var cs := [Chunk(m, i)] + ContinuationChunks(Step(m, i));
      && WellFormedChunks(cs)
      && (forall k :: 1 <= k < |cs| ==> IsContinuation(cs[k]))
      && |cs| >= 2
      && Unsplit(cs) == m
  {
    var s := Step(m, i);
    ContinuationChunksFacts(s);
    CutFacts(m, i);
    var rest := ContinuationChunks(s);
    var cs := [Chunk(m, i)] + rest;
    assert cs[1..] == rest;
    WellFormedCons(Chunk(m, i), rest);
  }

  /** Every status fits in 140 characters, every status but the last ends
      with " ...", every status but the first begins with "... ", a short
      message is posted whole, and reading the statuses in order gives the
      message back. */
  lemma SplitMessageFacts(m: string)
    requires SplitTerminates(m) && SplitMessage(m).Ok?
    ensures WellFormedChunks(SplitMessage(m).value)
    ensures forall k :: 1 <= k < |SplitMessage(m).value| ==> IsContinuation(SplitMessage(m).value[k])
    ensures |m| <= MaxLength <==> SplitMessage(m).value == [m]
    ensures Unsplit(SplitMessage(m).value) == m
  {
    if |m| > MaxLength {
      LongMessageChunks(m, Cut(m));
    }
  }

  /** A continuation with no space between indices 4 and 132 is cut at index
      3, which gives it back unchanged: preProcessMessage loops forever. */
  lemma StuckContinuation(c: string)
    requires IsContinuation(c) && |c| > MaxLength
    requires forall j :: 4 <= j <= SearchFrom ==> c[j] != ' '
    ensures Cut(c) == 3
    ensures Step(c, 3) == c
    ensures !ContinuationEnds(c)
  {
    ContinuationSpace(c);
    assert c == c[..4] + c[4..];
  }

  /** Such messages exist: "ab " followed by 140 letters is cut at index 2 and
      then at index 3 for ever. */
  lemma SomeMessagesNeverEnd()
    ensures !SplitTerminates("ab " + seq(140, _ => 'x'))
  {
    var m := "ab " + seq(140, _ => 'x');
    assert m[2] == ' ';
    assert forall j :: 3 <= j < |m| ==> m[j] == 'x';
    var i := Cut(m);
    assert i == 2;
    var s := Step(m, i);
    assert forall j :: 4 <= j < |s| ==> s[j] == 'x';
    StuckContinuation(s);
  }

  // ---------------------------------------------------------------------------
  // tweet, with retry and fallback

  /** A call to the Twitter client or to a logger, in the order made. */
  datatype TwitterCall =
    | UpdateStatus(text: string)
    | SendDirectMessage(handle: string, text: string)
    | LogWarning(text: string)     // logger.log(Level.WARNING, "Tweet error", e)
    | FallbackInfo(text: string)   // fbLogger.info(message)

  /** The Twitter calls of one invocation when none throws: every status,
      then the whole message as a direct message. */
  function TwitterCalls(chunks: seq<string>, handle: string, message: string): (r: seq<TwitterCall>)
    ensures |r| == |chunks| + 1
    ensures forall k :: 0 <= k < |chunks| ==> r[k] == UpdateStatus(chunks[k])
    ensures r[|chunks|] == SendDirectMessage(handle, message)
  {
    seq(|chunks|, k requires 0 <= k < |chunks| => UpdateStatus(chunks[k])) + [SendDirectMessage(handle, message)]
  }

  /** The first index in [from, n) whose call fails, or n. */
  function FirstFailure(ok: nat -> bool, from: nat, n: nat): (r: nat)
    requires from <= n
    ensures from <= r <= n
    ensures forall j :: from <= j < r ==> ok(j)
    ensures r < n ==> !ok(r)
    decreases n - from
  {
    if from == n then n
    else if !ok(from) then from
    else FirstFailure(ok, from + 1, n)
  }

  /** The calls made up to and including one that threw, then the warning
      that logs it. */
  predicate StoppedAtFailure(effects: seq<TwitterCall>, calls: seq<TwitterCall>, ok: nat -> bool) {
    2 <= |effects| <= |calls| + 1 && effects[|effects| - 1] == LogWarning(TweetError)
    && effects[..|effects| - 1] == calls[..|effects| - 1] && !ok(|effects| - 2)
  }

  /** The Twitter calls made one after the other until one throws; the
      exception is logged as a warning and rethrown. */
  function MakeCalls(calls: seq<TwitterCall>, ok: nat -> bool): (r: Attempt<TwitterCall, ()>)
    ensures r.outcome.Ok? <==> forall j :: 0 <= j < |calls| ==> ok(j)
    ensures r.outcome.Ok? ==> r.effects == calls
    ensures r.outcome.Fail? ==>
      r.outcome.fault == Remote && StoppedAtFailure(r.effects, calls, ok)
      && forall j :: 0 <= j < |r.effects| - 2 ==> ok(j)
  {
    var k := FirstFailure(ok, 0, |calls|);
    if k == |calls| then Attempt(calls, Ok(()))
    else
      var effects := calls[..k + 1] + [LogWarning(TweetError)];
      assert effects[..k + 1] == calls[..k + 1];
      Attempt(effects, Fail(Remote))
  }

  /** One invocation of tweet(); `ok(k)` is whether its k-th Twitter call
      succeeds. The first exception is logged as a warning and rethrown. */
  function TweetAttempt(message: string, handle: string, ok: nat -> bool): (r: Attempt<TwitterCall, ()>)
    requires SplitTerminates(message)
    ensures r.outcome.Ok? <==>
      SplitMessage(message).Ok? && forall j :: 0 <= j <= |SplitMessage(message).value| ==> ok(j)
    ensures r.outcome.Ok? ==> r.effects == TwitterCalls(SplitMessage(message).value, handle, message)
    ensures r.outcome.Fail? ==>
      |r.effects| >= 1 && r.effects[|r.effects| - 1] == LogWarning(TweetError)
      && r.outcome.fault == (if SplitMessage(message).Fail? then IndexOutOfBounds else Remote)
    ensures r.outcome.Fail? && SplitMessage(message).Fail? ==> r.effects == [LogWarning(TweetError)]
    ensures r.outcome.Fail? && SplitMessage(message).Ok? ==>
      StoppedAtFailure(r.effects, TwitterCalls(SplitMessage(message).value, handle, message), ok)
  {
    match SplitMessage(message)
    case Fail(f) => Attempt([LogWarning(TweetError)], Fail(f))
    case Ok(chunks) => MakeCalls(TwitterCalls(chunks, handle, message), ok)
  }

  /** tweet() as written: split, post every status, send the direct message. */
  method Tweet(message: string, handle: string, ok: nat -> bool)
    returns (effects: seq<TwitterCall>, outcome: Result<()>)
    requires SplitTerminates(message)
    ensures Attempt(effects, outcome) == TweetAttempt(message, handle, ok)
  {
    var msgList := PreProcessMessage(message);
    if msgList.Fail? {
      return [LogWarning(TweetError)], Fail(msgList.fault);
    }
    var chunks := msgList.value;
    ghost var calls := TwitterCalls(chunks, handle, message);
    assert TweetAttempt(message, handle, ok) == MakeCalls(calls, ok);
    effects := [];
    for k := 0 to |chunks|
      invariant effects == calls[..k]
      invariant forall j :: 0 <= j < k ==> ok(j)
    {
      PrefixGrows(calls, k);
      effects := effects + [UpdateStatus(chunks[k])];
      if !ok(k) {
        FailsAt(calls, ok, k);
        return effects + [LogWarning(TweetError)], Fail(Remote);
      }
    }
    PrefixGrows(calls, |chunks|);
    effects := effects + [SendDirectMessage(handle, message)];
    if !ok(|chunks|) {
      FailsAt(calls, ok, |chunks|);
      return effects + [LogWarning(TweetError)], Fail(Remote);
    }
    assert effects == calls;
    assert FirstFailure(ok, 0, |calls|) == |calls|;
    return effects, Ok(());
  }

  /** A prefix one element longer. */
  lemma PrefixGrows<T>(s: seq<T>, k: nat)
    requires k < |s|
    ensures s[..k] + [s[k]] == s[..k + 1]
  {
  }

  /** The calls up to the first one that throws, then the warning. */
  lemma FailsAt(calls: seq<TwitterCall>, ok: nat -> bool, k: nat)
    requires k < |calls| && !ok(k)
    requires forall j :: 0 <= j < k ==> ok(j)
    ensures MakeCalls(calls, ok) == Attempt(calls[..k + 1] + [LogWarning(TweetError)], Fail(Remote))
  {
    assert FirstFailure(ok, 0, |calls|) == k;
  }

  /** NotificationFallbackHandler.handle: the message goes to the fallback log. */
  function FallbackAttempt(message: string): (r: Attempt<TwitterCall, ()>)
    ensures r.outcome.Ok? && r.effects == [FallbackInfo(message)]
  {
    Attempt([FallbackInfo(message)], Ok(()))
  }

  /** The successive invocations of tweet(). */
  function TweetAttempts(message: string, handle: string, ok: nat -> nat -> bool): (r: nat -> Attempt<TwitterCall, ()>)
    requires SplitTerminates(message)
    ensures forall k: nat :: r(k) == TweetAttempt(message, handle, ok(k))
  {
    (k: nat) => TweetAttempt(message, handle, ok(k))
  }

  /** The guarded tweet as NotificationResource sees it; `ok(k)(j)` is whether
      the j-th Twitter call of the k-th invocation succeeds. It never throws:
      at worst the message is logged. */
  function GuardedTweet(message: string, handle: string, ok: nat -> nat -> bool): (r: Attempt<TwitterCall, ()>)
    requires SplitTerminates(message)
    ensures r.outcome == Ok(())
  {
    var attempts := TweetAttempts(message, handle, ok);
    FailsOnlyThroughFallback(MaxRetries, attempts, FallbackAttempt(message));
    var r := WithFallback(MaxRetries, attempts, FallbackAttempt(message));
    assert r.outcome == Ok(r.outcome.value) == Ok(());
    r
  }

  /** When Twitter accepts everything, a short message is one status and one
      direct message, and nothing is logged. */
  lemma ShortMessageDelivered(message: string, handle: string, ok: nat -> nat -> bool)
    requires |message| <= MaxLength
    requires forall j: nat :: ok(0)(j)
    ensures GuardedTweet(message, handle, ok).effects
      == [UpdateStatus(message), SendDirectMessage(handle, message)]
  {
    var attempts := TweetAttempts(message, handle, ok);
    assert FirstFailure(ok(0), 0, 2) == 2;
    NoFallbackOnSuccess(MaxRetries, attempts, FallbackAttempt(message), 0);
  }

  /** An invocation whose first Twitter call fails posts only the first
      status and logs the failure. */
  lemma FirstCallRefused(message: string, handle: string, ok: nat -> bool)
    requires SplitTerminates(message) && SplitMessage(message).Ok?
    requires !ok(0)
    ensures TweetAttempt(message, handle, ok)
      == Attempt([UpdateStatus(SplitMessage(message).value[0]), LogWarning(TweetError)], Fail(Remote))
  {
    var chunks := SplitMessage(message).value;
    var calls := TwitterCalls(chunks, handle, message);
    var r := MakeCalls(calls, ok);
    assert TweetAttempt(message, handle, ok) == r;
    assert |r.effects| == 2;
    assert r.effects == r.effects[..1] + [r.effects[1]];
  }

  /** Three invocations that each make the same calls and throw are followed
      by the fallback. */
  lemma ThreeFailures(attempts: nat -> Attempt<TwitterCall, ()>, once: seq<TwitterCall>, fallback: Attempt<TwitterCall, ()>)
    requires forall k: nat :: attempts(k).effects == once && attempts(k).outcome.Fail?
    ensures WithFallback(MaxRetries, attempts, fallback).effects == once + once + once + fallback.effects
  {
    FallbackAfterExhaustion(MaxRetries, attempts, fallback);
    assert Effects(attempts, 2, 1) == once;
    assert Effects(attempts, 1, 2) == once + once;
    assert Effects(attempts, 0, 3) == once + once + once;
  }

  /** When Twitter refuses everything, the first status is tried three times,
      each failure logged, and then the message goes to the fallback log. */
  lemma TwitterDown(message: string, handle: string, ok: nat -> nat -> bool)
    requires SplitTerminates(message) && SplitMessage(message).Ok?
    requires forall k: nat, j: nat :: !ok(k)(j)
    ensures var first := UpdateStatus(SplitMessage(message).value[0]);
      GuardedTweet(message, handle, ok).effects
      == [first, LogWarning(TweetError), first, LogWarning(TweetError),
          first, LogWarning(TweetError), FallbackInfo(message)]
  {
    var attempts := TweetAttempts(message, handle, ok);
    var first := UpdateStatus(SplitMessage(message).value[0]);
    var once := [first, LogWarning(TweetError)];
    forall k: nat
      ensures attempts(k).effects == once && attempts(k).outcome.Fail?
    {
      FirstCallRefused(message, handle, ok(k));
    }
    ThreeFailures(attempts, once, FallbackAttempt(message));
  }

  /** A message the cut cannot handle fails every invocation before anything
      is posted: three warnings, then the fallback log. */
  lemma UncuttableMessageLogged(message: string, handle: string, ok: nat -> nat -> bool)
    requires |message| > MaxLength && Cut(message) < 0
    ensures GuardedTweet(message, handle, ok).effects
      == [LogWarning(TweetError), LogWarning(TweetError), LogWarning(TweetError), FallbackInfo(message)]
  {
    var attempts := TweetAttempts(message, handle, ok);
    forall k: nat
      ensures attempts(k) == Attempt([LogWarning(TweetError)], Fail(IndexOutOfBounds))
    {
    }
    FallbackAfterExhaustion(MaxRetries, attempts, FallbackAttempt(message));
  }

  /** A retry starts again from the first status: when the direct message of
      the first invocation fails, every status is posted twice. */
  lemma RetryRepostsStatuses(message: string, handle: string, ok: nat -> nat -> bool)
    requires SplitTerminates(message) && SplitMessage(message).Ok?
    requires var n := |SplitMessage(message).value|;
      (forall j: nat :: j < n ==> ok(0)(j)) && !ok(0)(n) && (forall j: nat :: ok(1)(j))
    ensures var calls := TwitterCalls(SplitMessage(message).value, handle, message);
      GuardedTweet(message, handle, ok).effects == calls + [LogWarning(TweetError)] + calls
  {
    var attempts := TweetAttempts(message, handle, ok);
    var n := |SplitMessage(message).value|;
    var calls := TwitterCalls(SplitMessage(message).value, handle, message);
    assert FirstFailure(ok(0), 0, n + 1) == n;
    assert calls[..n + 1] == calls;
    assert FirstFailure(ok(1), 0, n + 1) == n + 1;
    NoFallbackOnSuccess(MaxRetries, attempts, FallbackAttempt(message), 1);
  }
}
