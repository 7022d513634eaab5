/// The orchestrator of the occasion service (Orchestrator.java): a table from
/// occasion id to the handle of a one-shot timer, and the notification
/// workflow a timer runs. Timers are jobs held in `pending` until they fire
/// or are cancelled; firing is an explicit step. The group, user and
/// notification services, the token builder, the date parser, the clock and
/// the currency formatter are parameters.
module Orchestration {
  import opened Doc
  import opened Responses
  import opened FaultTolerance
  import opened Notification
  import Occasions
  import Storage

  type Occasion = Occasions.Occasion
  type Contribution = Occasions.Contribution

  // ---------------------------------------------------------------------------
  // Configuration and the services the workflow talks to

  /** GROUP_SERVICE_URL, USER_SERVICE_URL, NOTIFICATION_SERVICE_URL and
      NOTIFICATION_1_1_SERVICE_URL, set by setOccasionResource. */
  datatype Urls = Urls(group: string, user: string, notification: string, notification11: string)

  /** Before setOccasionResource the static URL fields are null, and Java
      string concatenation prints them as "null". */
  const UnsetUrls := Urls("null", "null", "null", "null")

  /** What the outside world does during one run of the workflow:
      - token: the compact JWT the builder returns;
      - get(url): the GET of makeConnection with its body read as a JSON
        object (None when no object could be read from it; Fail(Io) is the
        IOException the workflow catches, any other fault escapes);
      - formatUsd: NumberFormat.getCurrencyInstance(Locale.US).format;
      - primary(k): what the k-th POST to the logging notification service did;
      - fallback: what the POST to the Twitter notification service did. */
  datatype Services = Services(
    token: string,
    get: string -> Result<Option<Object>>,
    formatUsd: real -> string,
    primary: nat -> Result<HttpResponse>,
    fallback: Result<HttpResponse>)

  /** The groups claim and the subject of the token notify mints. */
  const TokenGroup := "orchestrator"
  const TokenSubject := "INTERNAL-ORCHESTRATOR"
  const GroupNameKey := "name"
  const FirstNameKey := "firstName"
  const LastNameKey := "lastName"
  const TwitterHandleKey := "twitterHandle"
  const WishListLinkKey := "wishListLink"

  // ---------------------------------------------------------------------------
  // The total and the message

  /** The contributions added up in list order. */
  function Sum(cs: seq<Contribution>): real
    decreases |cs|
  {
    if cs == [] then 0.0 else Sum(cs[..|cs| - 1]) + cs[|cs| - 1].amount
  }

  /** The accumulator loop of notify. */
  method TotalAmount(cs: seq<Contribution>) returns (total: real)
    ensures total == Sum(cs)
  {
    total := 0.0;
    for i := 0 to |cs|
      invariant total == Sum(cs[..i])
    {
      assert cs[..i + 1][..i] == cs[..i];
      total := total + cs[i].amount;
    }
    assert cs[..|cs|] == cs;
  }

  /** The total of two lists put together is the sum of their totals. */
  lemma {:induction false} SumConcat(a: seq<Contribution>, b: seq<Contribution>)
    ensures Sum(a + b) == Sum(a) + Sum(b)
    decreases |b|
  {
    if b == [] {
      assert a + b == a;
    } else {
      SumConcat(a, b[..|b| - 1]);
      assert (a + b)[..|a + b| - 1] == a + b[..|b| - 1];
    }
  }

  /** A list of contributions of 30 and 20 totals 50. */
  lemma {:induction false} TotalOfTwo(x: Contribution, y: Contribution)
    requires x.amount == 30.0 && y.amount == 20.0
    ensures Sum([x, y]) == 50.0
  {
    assert [x, y][..1] == [x];
    assert Sum([x, y]) == Sum([x]) + 20.0;
    assert [x][..0] == [];
    assert Sum([x]) == Sum([]) + 30.0;
  }

  const Congratulations := "Congratulations "
  const ContributedBy := " has been contributed by "
  const SelectGift := ".  Please select a gift from your wish list at "

  /** createEventNotificationMessage: the fixed template, with two spaces
      before "Please". */
  function CreateEventNotificationMessage(
    recipientFirstName: string, recipientLastName: string, wishList: string,
    groupName: string, occasionName: string, totalAmount: string): (r: string)
    ensures |r| == 97 + |recipientFirstName| + |recipientLastName| + |wishList|
      + |groupName| + |occasionName| + |totalAmount|
    ensures r[..|Congratulations|] == Congratulations && r[|r| - 1] == '.'
    ensures var k := |r| - 1 - |wishList| - |SelectGift|;
      r[k..k + |SelectGift|] == SelectGift && r[k + |SelectGift|..|r| - 1] == wishList
  {
    Congratulations + recipientFirstName + " " + recipientLastName + "! " + totalAmount
    + ContributedBy + groupName + " for " + occasionName + SelectGift + wishList + "."
  }

  // ---------------------------------------------------------------------------
  // The workflow (notify), as a specification

  function GroupUrl(urls: Urls, o: Occasion): string {
    urls.group + "/" + o.groupId
  }

  function UserUrl(urls: Urls, o: Occasion): string {
    urls.user + "/" + o.recipientId
  }

  /** makeConnection, readEntity and stringToJsonObj: an IOException is caught
      and leaves the response null, and a body that is not a JSON object gives
      a null object; either way the next dereference throws. */
  function Fetch(services: Services, url: string): (r: Result<Object>)
    ensures r.Ok? <==> services.get(url).Ok? && services.get(url).value.Some?
    ensures services.get(url) == Ok(None) || services.get(url) == Fail(Io) ==> r == Fail(NullPointer)
    ensures services.get(url).Fail? && services.get(url).fault != Io ==> r == Fail(services.get(url).fault)
  {
    match services.get(url)
    case Ok(Some(o)) => Ok(o)
    case Ok(None) => Fail(NullPointer)
    case Fail(Io) => Fail(NullPointer)
    case Fail(f) => Fail(f)
  }

  /** The group's name from the group service. */
  function GroupName(services: Services, url: string): (r: Result<string>)
    ensures r.Ok? ==>
      Fetch(services, url).Ok? && GroupNameKey in Fetch(services, url).value
      && Fetch(services, url).value[GroupNameKey] == JStr(r.value)
  {
    var group :- Fetch(services, url);
    GetString(group, GroupNameKey)
  }

  datatype Recipient = Recipient(firstName: string, lastName: string, twitterHandle: string, wishList: string)

  /** The recipient's four fields from the user service, read in this order. */
  function FetchRecipient(services: Services, url: string): (r: Result<Recipient>)
    ensures r.Ok? ==> Fetch(services, url).Ok?
    ensures r.Ok? ==> var u := Fetch(services, url).value;
      FirstNameKey in u && LastNameKey in u && TwitterHandleKey in u && WishListLinkKey in u
      && u[FirstNameKey] == JStr(r.value.firstName) && u[LastNameKey] == JStr(r.value.lastName)
      && u[TwitterHandleKey] == JStr(r.value.twitterHandle) && u[WishListLinkKey] == JStr(r.value.wishList)
  {
    var user :- Fetch(services, url);
    var firstName :- GetString(user, FirstNameKey);
    var lastName :- GetString(user, LastNameKey);
    var twitterHandle :- GetString(user, TwitterHandleKey);
    var wishList :- GetString(user, WishListLinkKey);
    Ok(Recipient(firstName, lastName, twitterHandle, wishList))
  }

  /** The arguments the workflow hands to makeNotificationConnection. */
  function NotificationArgs(o: Occasion, urls: Urls, services: Services, groupName: string, recipient: Recipient): ConnectionArgs {
    var message := CreateEventNotificationMessage(
      recipient.firstName, recipient.lastName, recipient.wishList,
      groupName, o.name, services.formatUsd(Sum(o.contributions)));
    ConnectionArgs(message, services.token, urls.notification11, recipient.twitterHandle, urls.notification)
  }

  /** The catch (Throwable) around the notification call. */
  function ResponseOf(outcome: Result<OccasionResponse>): (r: OccasionResponse)
    ensures outcome.Ok? ==> r == outcome.value
    ensures outcome.Fail? ==> r.notificationType == NotificationTypeError && r.notificationThrowable == Some(outcome.fault)
  {
    match outcome
    case Ok(response) => response
    case Fail(f) => OccasionResponse(None, NotificationTypeError, Some(f))
  }

  /** One run of notify: the calls it makes, in order, and its outcome (Fail
      when an exception escapes it). */
  datatype Run = Run(calls: seq<Call>, outcome: Result<OccasionResponse>)

  function Workflow(o: Occasion, urls: Urls, services: Services): (r: Run)
    ensures |r.calls| >= 2 && r.calls[..2] == [MintToken(TokenGroup, TokenSubject), Get(GroupUrl(urls, o), services.token)]
    ensures GroupName(services, GroupUrl(urls, o)).Fail? ==>
      |r.calls| == 2 && r.outcome == Fail(GroupName(services, GroupUrl(urls, o)).fault)
    ensures GroupName(services, GroupUrl(urls, o)).Ok? ==>
      |r.calls| >= 3 && r.calls[2] == Get(UserUrl(urls, o), services.token)
    ensures GroupName(services, GroupUrl(urls, o)).Ok? && FetchRecipient(services, UserUrl(urls, o)).Fail? ==>
      |r.calls| == 3 && r.outcome == Fail(FetchRecipient(services, UserUrl(urls, o)).fault)
    ensures r.outcome.Fail? <==>
      GroupName(services, GroupUrl(urls, o)).Fail? || FetchRecipient(services, UserUrl(urls, o)).Fail?
    ensures r.outcome.Ok? ==>
      var args := NotificationArgs(o, urls, services,
                    GroupName(services, GroupUrl(urls, o)).value,
                    FetchRecipient(services, UserUrl(urls, o)).value);
      |r.calls| >= 4 && r.calls[3] == LogCall(args)
      && r.outcome.value == ResponseOf(MakeNotificationConnection(args, services.primary, services.fallback).outcome)
  {
    var mint := MintToken(TokenGroup, TokenSubject);
    var getGroup := Get(GroupUrl(urls, o), services.token);
    var getUser := Get(UserUrl(urls, o), services.token);
    var groupName := GroupName(services, GroupUrl(urls, o));
    if groupName.Fail? then Run([mint, getGroup], Fail(groupName.fault))
    else
      var recipient := FetchRecipient(services, UserUrl(urls, o));
      if recipient.Fail? then Run([mint, getGroup, getUser], Fail(recipient.fault))
      else
        var args := NotificationArgs(o, urls, services, groupName.value, recipient.value);
        var sent := MakeNotificationConnection(args, services.primary, services.fallback);
        Run([mint, getGroup, getUser] + sent.effects, Ok(ResponseOf(sent.outcome)))
  }

  /** Past both lookups the workflow's run is the three calls of the lookups
      followed by the notification request. */
  lemma WorkflowSends(o: Occasion, urls: Urls, services: Services, groupName: string, recipient: Recipient)
    requires GroupName(services, GroupUrl(urls, o)) == Ok(groupName)
    requires FetchRecipient(services, UserUrl(urls, o)) == Ok(recipient)
    ensures var sent := MakeNotificationConnection(
              NotificationArgs(o, urls, services, groupName, recipient), services.primary, services.fallback);
      Workflow(o, urls, services)
        == Run([MintToken(TokenGroup, TokenSubject), Get(GroupUrl(urls, o), services.token), Get(UserUrl(urls, o), services.token)]
               + sent.effects, Ok(ResponseOf(sent.outcome)))
  {
  }

  /** A workflow that gets past both lookups mints one token, GETs the group
      and then the recipient, and makes one notification request: one to three
      POSTs to the logging service and, when all of them threw, one to the
      Twitter service. */
  lemma WorkflowCalls(o: Occasion, urls: Urls, services: Services)
    requires GroupName(services, GroupUrl(urls, o)).Ok?
    requires FetchRecipient(services, UserUrl(urls, o)).Ok?
    ensures var args := NotificationArgs(o, urls, services,
                          GroupName(services, GroupUrl(urls, o)).value,
                          FetchRecipient(services, UserUrl(urls, o)).value);
      var n := Invocations(LogAttempts(args, services.primary), 0, MaxRetries);
      1 <= n <= MaxRetries + 1
      && Workflow(o, urls, services).calls
         == [MintToken(TokenGroup, TokenSubject), Get(GroupUrl(urls, o), services.token), Get(UserUrl(urls, o), services.token)]
            + seq(n, _ => LogCall(args))
            + (if services.primary(0).Fail? && services.primary(1).Fail? && services.primary(2).Fail?
               then [TweetCall(args)] else [])
  {
    var args := NotificationArgs(o, urls, services,
                  GroupName(services, GroupUrl(urls, o)).value,
                  FetchRecipient(services, UserUrl(urls, o)).value);
    NotificationCalls(args, services.primary, services.fallback);
  }

  /** An exception escapes the workflow exactly when a lookup fails, and then
      no notification is sent; whatever the notification step does, the
      workflow itself returns a response. */
  lemma FailsOnlyInLookups(o: Occasion, urls: Urls, services: Services)
    ensures Workflow(o, urls, services).outcome.Fail?
      <==> GroupName(services, GroupUrl(urls, o)).Fail? || FetchRecipient(services, UserUrl(urls, o)).Fail?
    ensures Workflow(o, urls, services).outcome.Fail? ==>
      forall c :: c in Workflow(o, urls, services).calls ==> !c.Post?
  {
  }

  /** When every notification path is down, the workflow still returns: an
      error response carrying the Twitter POST's exception. */
  lemma ErrorResponseWhenNotificationFails(o: Occasion, urls: Urls, services: Services)
    requires GroupName(services, GroupUrl(urls, o)).Ok?
    requires FetchRecipient(services, UserUrl(urls, o)).Ok?
    requires services.primary(0).Fail? && services.primary(1).Fail? && services.primary(2).Fail?
    requires services.fallback.Fail? && services.fallback.fault != Io
    ensures Workflow(o, urls, services).outcome
      == Ok(OccasionResponse(None, NotificationTypeError, Some(services.fallback.fault)))
  {
    var args := NotificationArgs(o, urls, services,
                  GroupName(services, GroupUrl(urls, o)).value,
                  FetchRecipient(services, UserUrl(urls, o)).value);
    FailureNeedsEveryPathDown(args, services.primary, services.fallback);
  }

  // ---------------------------------------------------------------------------
  // The job table, as a specification

  /** A timer: the occasion its runnable captured and when it fires. */
  datatype Job = Job(occasion: Occasion, fireTime: int)

  /** scheduledOccasions (occasion id to the handle of its Future), the timers
      that have neither fired nor been cancelled, and the next free handle. */
  datatype Jobs = Jobs(table: map<string, nat>, pending: map<nat, Job>, nextHandle: nat) {
    /** Every handle in use was handed out before. */
    predicate Valid() {
      (forall h :: h in pending ==> h < nextHandle)
      && (forall id :: id in table ==> table[id] < nextHandle)
    }
  }

  datatype Step = Step(jobs: Jobs, outcome: Result<()>)

  const TriggerTime := " 08:00:00"

  function Max(a: int, b: int): int {
    if a < b then b else a
  }

  /** scheduleOccasion: the timer fires at 8 AM on the occasion's date, at
      once when that time has passed. `parse` is SimpleDateFormat.parse with
      "yyyy-MM-dd HH:mm:ss" (None: ParseException), `now` the clock. The timer
      is created before the id is read, so a null id throws after it. */
  function Schedule(s: Jobs, o: Occasion, parse: string -> Option<int>, now: int): (r: Step)
    ensures parse(o.date + TriggerTime).None? ==> r == Step(s, Fail(Parse))
    ensures parse(o.date + TriggerTime).Some? ==>
      var t := parse(o.date + TriggerTime).value;
      r.jobs.nextHandle == s.nextHandle + 1
      && r.jobs.pending.Keys == s.pending.Keys + {s.nextHandle}
      && r.jobs.pending[s.nextHandle] == Job(o, if t < now then now else t)
      && (forall h :: h in s.pending && h != s.nextHandle ==> r.jobs.pending[h] == s.pending[h])
    ensures parse(o.date + TriggerTime).Some? && o.id.None? ==>
      r.outcome == Fail(NullPointer) && r.jobs.table == s.table
    ensures parse(o.date + TriggerTime).Some? && o.id.Some? ==>
      r.outcome == Ok(()) && r.jobs.table == s.table[o.id.value := s.nextHandle]
    ensures s.Valid() ==> r.jobs.Valid()
  {
    match parse(o.date + TriggerTime)
    case None => Step(s, Fail(Parse))
    case Some(desired) =>
      var handle := s.nextHandle;
      var pending := s.pending[handle := Job(o, now + Max(desired - now, 0))];
      if o.id.None? then Step(Jobs(s.table, pending, handle + 1), Fail(NullPointer))
      else Step(Jobs(s.table[o.id.value := handle], pending, handle + 1), Ok(()))
  }

  /** cancelOccasion: remove the entry and cancel its timer; without an entry
      the null Future is dereferenced. */
  function Cancel(s: Jobs, id: string): (r: Step)
    ensures id !in s.table ==> r == Step(s, Fail(NullPointer))
    ensures id in s.table ==>
      r.outcome == Ok(()) && r.jobs.table.Keys == s.table.Keys - {id}
      && r.jobs.pending.Keys == s.pending.Keys - {s.table[id]}
      && (forall k :: k in r.jobs.table ==> r.jobs.table[k] == s.table[k])
      && (forall h :: h in r.jobs.pending ==> r.jobs.pending[h] == s.pending[h])
      && r.jobs.nextHandle == s.nextHandle
    ensures s.Valid() ==> r.jobs.Valid()
  {
    if id !in s.table then Step(s, Fail(NullPointer))
    else Step(Jobs(s.table - {id}, s.pending - {s.table[id]}, s.nextHandle), Ok(()))
  }

  /** The executor runs a due timer: it leaves the pending set; the table is
      not touched. */
  function Fire(s: Jobs, handle: nat): (r: Jobs)
    ensures r.table == s.table && r.nextHandle == s.nextHandle
    ensures r.pending.Keys == s.pending.Keys - {handle}
    ensures forall h :: h in r.pending ==> r.pending[h] == s.pending[h]
    ensures s.Valid() ==> r.Valid()
  {
    Jobs(s.table, s.pending - {handle}, s.nextHandle)
  }

  /** A parse failure happens before anything is scheduled. */
  lemma ParseFailureSchedulesNothing(s: Jobs, o: Occasion, parse: string -> Option<int>, now: int)
    requires parse(o.date + TriggerTime).None?
    ensures Schedule(s, o, parse, now) == Step(s, Fail(Parse))
  {
  }

  /** After a successful schedule the table maps the id to a new pending timer
      that fires at the parsed time, or at once when that time has passed;
      every other entry and timer is kept. */
  lemma ScheduleRecordsJob(s: Jobs, o: Occasion, parse: string -> Option<int>, now: int)
    requires s.Valid()
    requires parse(o.date + TriggerTime).Some? && o.id.Some?
    ensures var r := Schedule(s, o, parse, now);
      var h := r.jobs.table[o.id.value];
      var t := parse(o.date + TriggerTime).value;
      r.outcome == Ok(())
      && h !in s.pending && h in r.jobs.pending
      && r.jobs.pending[h] == Job(o, if t < now then now else t)
      && (forall k :: k in s.pending ==> k in r.jobs.pending && r.jobs.pending[k] == s.pending[k])
      && (forall id :: id in s.table && id != o.id.value ==> id in r.jobs.table && r.jobs.table[id] == s.table[id])
      && r.jobs.Valid()
  {
  }

  /** Scheduling an id again points the table at the new timer but does not
      cancel the old one, which still fires. */
  lemma RescheduleOrphansOldTimer(s: Jobs, o: Occasion, parse: string -> Option<int>, now: int)
    requires s.Valid()
    requires parse(o.date + TriggerTime).Some? && o.id.Some?
    requires o.id.value in s.table && s.table[o.id.value] in s.pending
    ensures var r := Schedule(s, o, parse, now);
      s.table[o.id.value] in r.jobs.pending && r.jobs.table[o.id.value] != s.table[o.id.value]
  {
  }

  /** A null id throws, but the timer was already created and stays pending
      with no table entry pointing at it. */
  lemma NullIdLeavesUntrackedTimer(s: Jobs, o: Occasion, parse: string -> Option<int>, now: int)
    requires s.Valid()
    requires parse(o.date + TriggerTime).Some? && o.id.None?
    ensures var r := Schedule(s, o, parse, now);
      r.outcome == Fail(NullPointer) && r.jobs.table == s.table
      && s.nextHandle in r.jobs.pending && (forall id :: id in r.jobs.table ==> r.jobs.table[id] != s.nextHandle)
  {
  }

  /** Cancelling removes the id's entry and its timer and nothing else; an id
      without an entry throws and changes nothing. */
  lemma CancelRemovesEntry(s: Jobs, id: string)
    ensures id !in s.table ==> Cancel(s, id) == Step(s, Fail(NullPointer))
    ensures id in s.table ==>
      var r := Cancel(s, id);
      r.outcome == Ok(()) && id !in r.jobs.table && s.table[id] !in r.jobs.pending
      && (forall k :: k in s.table && k != id ==> k in r.jobs.table && r.jobs.table[k] == s.table[k])
      && (forall h :: h in s.pending && h != s.table[id] ==> h in r.jobs.pending)
  {
  }

  /** Only cancelOccasion removes table entries: firing keeps them. */
  lemma FiringKeepsEntries(s: Jobs, handle: nat)
    requires handle in s.pending
    ensures Fire(s, handle).table == s.table
    ensures handle !in Fire(s, handle).pending
  {
  }

  /** Scheduling, cancelling and firing keep every handle one that was handed
      out. */
  lemma StepsKeepValid(s: Jobs, o: Occasion, parse: string -> Option<int>, now: int, id: string, handle: nat)
    requires s.Valid()
    ensures Schedule(s, o, parse, now).jobs.Valid()
    ensures Cancel(s, id).jobs.Valid()
    ensures Fire(s, handle).Valid()
  {
  }

  // ---------------------------------------------------------------------------
  // The orchestrator

  class Orchestrator {
    var scheduledOccasions: map<string, nat>
    var pending: map<nat, Job>
    var nextHandle: nat
    /** The outgoing calls made so far, in order. */
    var calls: seq<Call>
    /** The occasion resource, of which the orchestrator uses only the
        collection (to delete an occasion once it has run). */
    var occasionResource: Storage.OccasionStore?
    var urls: Urls

    function State(): Jobs
      reads this
    {
      Jobs(scheduledOccasions, pending, nextHandle)
    }

    constructor ()
      ensures State() == Jobs(map[], map[], 0) && calls == []
      ensures occasionResource == null && urls == UnsetUrls
    {
      scheduledOccasions := map[];
      pending := map[];
      nextHandle := 0;
      calls := [];
      occasionResource := null;
      urls := UnsetUrls;
    }

    method SetOccasionResource(resource: Storage.OccasionStore, urls: Urls)
      modifies this`occasionResource, this`urls
      ensures occasionResource == resource && this.urls == urls
    {
      occasionResource := resource;
      this.urls := urls;
    }

    method ScheduleOccasion(o: Occasion, parse: string -> Option<int>, now: int) returns (r: Result<()>)
      modifies this`scheduledOccasions, this`pending, this`nextHandle
      ensures Step(State(), r) == Schedule(old(State()), o, parse, now)
    {
      var desiredDate := parse(o.date + TriggerTime);
      if desiredDate.None? {
        return Fail(Parse);
      }
      var delay := desiredDate.value - now;
      var scheduledOccasion := nextHandle;
      pending := pending[scheduledOccasion := Job(o, now + Max(delay, 0))];
      nextHandle := nextHandle + 1;
      if o.id.None? {
        return Fail(NullPointer);
      }
      scheduledOccasions := scheduledOccasions[o.id.value := scheduledOccasion];
      return Ok(());
    }

    method CancelOccasion(occasionId: string) returns (r: Result<()>)
      modifies this`scheduledOccasions, this`pending
      ensures Step(State(), r) == Cancel(old(State()), occasionId)
    {
      if occasionId !in scheduledOccasions {
        return Fail(NullPointer);
      }
      var scheduledOccasion := scheduledOccasions[occasionId];
      scheduledOccasions := scheduledOccasions - {occasionId};
      pending := pending - {scheduledOccasion};
      return Ok(());
    }

    /** notify: the workflow, then the occasion's record is deleted when the
        lookups succeeded and the resource is known. */
    method Notify(o: Occasion, services: Services) returns (r: Result<OccasionResponse>)
      modifies this`calls, occasionResource
      ensures calls == old(calls) + Workflow(o, urls, services).calls
      ensures r == Workflow(o, urls, services).outcome
      ensures occasionResource != null ==>
        occasionResource.docs
          == if r.Ok? && o.id.Some? then old(occasionResource.docs) - {o.id.value} else old(occasionResource.docs)
    {
      ghost var before := calls;
      ghost var docsBefore := if occasionResource != null then occasionResource.docs else map[];
      calls := calls + [MintToken(TokenGroup, TokenSubject)];
      var groupUrl := GroupUrl(urls, o);
      calls := calls + [Get(groupUrl, services.token)];
      var groupName := GroupName(services, groupUrl);
      if groupName.Fail? {
        return Fail(groupName.fault);
      }
      var userUrl := UserUrl(urls, o);
      calls := calls + [Get(userUrl, services.token)];
      var recipient := FetchRecipient(services, userUrl);
      if recipient.Fail? {
        return Fail(recipient.fault);
      }
      var totalAmount := TotalAmount(o.contributions);
      var message := CreateEventNotificationMessage(
        recipient.value.firstName, recipient.value.lastName, recipient.value.wishList,
        groupName.value, o.name, services.formatUsd(totalAmount));
      var args := ConnectionArgs(message, services.token, urls.notification11, recipient.value.twitterHandle, urls.notification);
      assert args == NotificationArgs(o, urls, services, groupName.value, recipient.value);
      ghost var lookups := [MintToken(TokenGroup, TokenSubject), Get(groupUrl, services.token), Get(userUrl, services.token)];
      assert calls == before + lookups;
      ghost var sent := MakeNotificationConnection(args, services.primary, services.fallback);
      var occasionResponse := Connect(args, services);
      assert calls == before + (lookups + sent.effects);
      WorkflowSends(o, urls, services, groupName.value, recipient.value);
      assert calls == before + Workflow(o, urls, services).calls;
      assert Workflow(o, urls, services).outcome == Ok(occasionResponse);
      ghost var sentCalls := calls;
      if occasionResource != null {
        assert occasionResource.docs == docsBefore;
        var _ := occasionResource.Remove(o.id);
        assert occasionResource.docs == if o.id.Some? then docsBefore - {o.id.value} else docsBefore;
      }
      assert calls == sentCalls;
      return Ok(occasionResponse);
    }

    /** makeNotificationConnection through the retrying bean: the calls it
        makes are logged and its answer, or the exception it ends with, is
        turned into the occasion response. */
    method Connect(args: ConnectionArgs, services: Services) returns (response: OccasionResponse)
      modifies this`calls
      ensures var sent := MakeNotificationConnection(args, services.primary, services.fallback);
        calls == old(calls) + sent.effects && response == ResponseOf(sent.outcome)
    {
      var effects, outcome := RetryThenFallback(MaxRetries, LogAttempts(args, services.primary), TweetAttempt(args, services.fallback));
      calls := calls + effects;
      response := ResponseOf(outcome);
    }

    /** The executor runs a pending timer: the workflow runs and its response
        is dropped; the table entry stays. */
    method FireJob(handle: nat, services: Services)
      requires handle in pending
      modifies this`pending, this`calls, occasionResource
      ensures State() == Fire(old(State()), handle)
      ensures calls == old(calls) + Workflow(old(pending)[handle].occasion, urls, services).calls
      ensures occasionResource != null ==>
        var o := old(pending)[handle].occasion;
        occasionResource.docs
          == if Workflow(o, urls, services).outcome.Ok? && o.id.Some?
             then old(occasionResource.docs) - {o.id.value} else old(occasionResource.docs)
    {
      var job := pending[handle];
      pending := pending - {handle};
      ghost var fired := State();
      assert fired == Fire(old(State()), handle);
      var _ := Notify(job.occasion, services);
      assert State() == fired;
    }

    /** runOccasion: cancel the timer first (an id without one throws before
        the workflow starts), then run the workflow and return its response. */
    method RunOccasion(o: Occasion, services: Services) returns (r: Result<OccasionResponse>)
      modifies this`scheduledOccasions, this`pending, this`calls, occasionResource
      ensures o.id.None? || o.id.value !in old(scheduledOccasions) ==>
        r == Fail(NullPointer) && State() == old(State()) && calls == old(calls)
      ensures o.id.Some? && o.id.value in old(scheduledOccasions) ==>
        State() == Cancel(old(State()), o.id.value).jobs
        && calls == old(calls) + Workflow(o, urls, services).calls
        && r == Workflow(o, urls, services).outcome
      ensures occasionResource != null ==>
        occasionResource.docs
          == if o.id.Some? && o.id.value in old(scheduledOccasions) && Workflow(o, urls, services).outcome.Ok?
             then old(occasionResource.docs) - {o.id.value} else old(occasionResource.docs)
    {
      if o.id.None? {
        return Fail(NullPointer);
      }
      var cancelled := CancelOccasion(o.id.value);
      if cancelled.Fail? {
        return Fail(cancelled.fault);
      }
      r := Notify(o, services);
    }
  }
}
