# acmegifts occasions, notifications and forms in Dafny

This project models the core of the acmegifts sample. In that system, group members pool money for a recipient's occasion, such as a birthday. On the occasion's date an orchestrator sends the recipient a notification.

The model covers these parts:

- **Occasion and Contribution records** of the occasion service (`occasion.dfy`). It models their JSON and DBObject conversions, with null normalisation, and their `equals` rules. Round-trip lemmas show that a record reads back from either form.
- **The orchestrator** (`orchestrator.dfy`).
  - Its table of scheduled occasions, as the values `Jobs`, `Schedule`, `Cancel` and `Fire`. The class `Orchestrator` holds that state in fields.
  - The notification workflow `notify`. It mints a token, looks up the group and the recipient, totals the contributions, and builds the message. It then posts the message with retry and fallback, and deletes the occasion once notified.
- **The retry and fallback policy** (`fault_tolerance.dfy`). `@Retry(maxRetries = n)` with `@Fallback` is a generic function plus a loop method. The occasion service's notification bean and fallback handler (`notification.dfy`) and the Twitter notification service's `tweet` and `preProcessMessage` (`tweet.dfy`) are both built on it.
- **OccasionResource**, the REST endpoints (`occasion_resource.dfy`). It covers JWT group checks, create, run, update and delete, the response built after a run, and the reload of stored occasions at start-up. These act on a model of the MongoDB collection (`store.dfy`).
- **OccasionResponse**, as a value (`responses.dfy`).
- **The User and Group records** of the user and group services (`user.dfy`, `group.dfy`). `Group` is a class that holds its members in an array.
- **The front end's create and edit pages** (`forms.dfy`). This covers the date check with its Gregorian month table, and how each submit handler rewrites the contribution list.

**How the model represents the source:**

- A Java exception is a `Fail` carrying a `Fault`.
- A JSON object or DBObject is a `map<string, Value>`.
- An ObjectId is a 24-digit lower-case hexadecimal string.
- Some things come from outside the code: the clock, date parsing, responses from other services, Twitter's answers, currency formatting, and the ids MongoDB hands out. All of these are parameters.

## Model

| member | source | states |
|---|---|---|
| Occasions.ContributionFromJson | microservice-occasion/src/main/java/net/wasdev/samples/microProfile/occasions/Occasion.java:185-195 | reading a contribution from JSON: fails exactly when the amount is present and not a number; a missing amount reads as 0 and a missing or non-string user id as null |
| Occasions.ContributionFromDbo | microservice-occasion/src/main/java/net/wasdev/samples/microProfile/occasions/Occasion.java:175-183 | reading a contribution from a DBObject succeeds exactly when the user id is absent, null or a string and the amount is a number; a non-string user id is a ClassCastException, a missing or null amount a NullPointerException |
| Occasions.ContributionToJson | microservice-occasion/src/main/java/net/wasdev/samples/microProfile/occasions/Occasion.java:234-239 | JSON output of a contribution succeeds exactly when its user id is set (JsonObjectBuilder refuses null) |
| Occasions.ContributionToDbo | microservice-occasion/src/main/java/net/wasdev/samples/microProfile/occasions/Occasion.java:229-232 | the DBObject of a contribution has exactly the amount and the user id, a null user id stored as null |
| Occasions.ContributionJsonRoundTrip | microservice-occasion/src/main/java/net/wasdev/samples/microProfile/occasions/Occasion.java:185-195 | a contribution with a user id reads back from its JSON unchanged |
| Occasions.ContributionDboRoundTrip | microservice-occasion/src/main/java/net/wasdev/samples/microProfile/occasions/Occasion.java:175-183 | every contribution reads back from its DBObject unchanged |
| Occasions.ContributionsToJson | microservice-occasion/src/main/java/net/wasdev/samples/microProfile/occasions/Occasion.java:95-107 | the JSON array has one object per contribution, in order, and exists exactly when every user id is set |
| Occasions.ContributionsToDbo | microservice-occasion/src/main/java/net/wasdev/samples/microProfile/occasions/Occasion.java:109-118 | the DB list has one object per contribution, in order |
| Occasions.ElementFromJson | microservice-occasion/src/main/java/net/wasdev/samples/microProfile/occasions/Occasion.java:132-143 | an element of a JSON contributions array that is not an object is a ClassCastException |
| Occasions.ElementFromDbo | microservice-occasion/src/main/java/net/wasdev/samples/microProfile/occasions/Occasion.java:145-156 | a null element of a stored list passes the cast and fails with a NullPointerException on the first field read; another non-object is a ClassCastException |
| Occasions.JsonPrefixFailure | microservice-occasion/src/main/java/net/wasdev/samples/microProfile/occasions/Occasion.java:132-143 | the conversion stops at the first element that cannot be read: a failure on a prefix is the failure of the whole array |
| Occasions.DboPrefixFailure | microservice-occasion/src/main/java/net/wasdev/samples/microProfile/occasions/Occasion.java:145-156 | the same for DB lists |
| Occasions.ElementsFromJson | microservice-occasion/src/main/java/net/wasdev/samples/microProfile/occasions/Occasion.java:137-139 | the decoding loop of jsonArrayToList yields one contribution per element |
| Occasions.ElementsFromDbo | microservice-occasion/src/main/java/net/wasdev/samples/microProfile/occasions/Occasion.java:150-152 | the decoding loop of dbListToList yields one contribution per element |
| Occasions.ContributionsFromJson | microservice-occasion/src/main/java/net/wasdev/samples/microProfile/occasions/Occasion.java:132-143 | jsonArrayToList fails with the loop's fault, or with a NullPointerException when a decoded contribution has no user id, and otherwise returns the decoded list |
| Occasions.ContributionsFromDbo | microservice-occasion/src/main/java/net/wasdev/samples/microProfile/occasions/Occasion.java:145-156 | dbListToList fails with the loop's fault, or with a NullPointerException for a null user id, and otherwise returns the decoded list |
| Occasions.ElementsFromJsonAt | microservice-occasion/src/main/java/net/wasdev/samples/microProfile/occasions/Occasion.java:137-139 | the loop succeeds exactly when every element decodes, and position i holds element i's decoding |
| Occasions.ContributionsFromJsonAccepts | microservice-occasion/src/main/java/net/wasdev/samples/microProfile/occasions/Occasion.java:132-143 | jsonArrayToList returns exactly when every element is an object whose amount is absent or a number and whose user id is a string |
| Occasions.ElementsDboRoundTrip | microservice-occasion/src/main/java/net/wasdev/samples/microProfile/occasions/Occasion.java:145-156 | the decoding loop reads back every stored list, null user ids included |
| Occasions.ContributionsJsonRoundTrip | microservice-occasion/src/main/java/net/wasdev/samples/microProfile/occasions/Occasion.java:95-107 | reading back the JSON array of contributions with user ids gives the same list |
| Occasions.ContributionsDboRoundTrip | microservice-occasion/src/main/java/net/wasdev/samples/microProfile/occasions/Occasion.java:109-118 | a stored contribution list reads back unchanged when every user id is set; with a null user id dbListToList throws a NullPointerException from its exit log line (Occasion.java:154) |
| Occasions.JsonArrayToList | microservice-occasion/src/main/java/net/wasdev/samples/microProfile/occasions/Occasion.java:132-143 | the loop over a JSON array computes the element-wise conversion, failing with the first element's fault; afterwards the exit log line's listToString throws a NullPointerException when a decoded contribution has no user id |
| Occasions.DbListToList | microservice-occasion/src/main/java/net/wasdev/samples/microProfile/occasions/Occasion.java:145-156 | the loop over a DB list computes the element-wise conversion, failing with the first element's fault; afterwards the exit log line throws a NullPointerException for a null user id |
| Occasions.ListToJsonArray | microservice-occasion/src/main/java/net/wasdev/samples/microProfile/occasions/Occasion.java:95-107 | the loop building the JSON array agrees with the element-wise encoding |
| Occasions.ListToDbList | microservice-occasion/src/main/java/net/wasdev/samples/microProfile/occasions/Occasion.java:109-118 | the loop building the DB list agrees with the element-wise encoding |
| Occasions.ContributionEquals | microservice-occasion/src/main/java/net/wasdev/samples/microProfile/occasions/Occasion.java:246-252 | contribution equality compares user id and amount and throws on a null user id |
| Occasions.Contains | microservice-occasion/src/main/java/net/wasdev/samples/microProfile/occasions/Occasion.java:246-252 | list membership through equals: plain membership for a contribution with an id, an exception on a null id unless the list is empty |
| Occasions.AllContained | microservice-occasion/src/main/java/net/wasdev/samples/microProfile/occasions/Occasion.java:158-166 | each contribution of the first list is found in the second |
| Occasions.ListsEqual | microservice-occasion/src/main/java/net/wasdev/samples/microProfile/occasions/Occasion.java:158-166 | two lists are equal when each contains the other, whatever the order or repetition |
| Occasions.ListsEqualIgnoresOrder | microservice-occasion/src/main/java/net/wasdev/samples/microProfile/occasions/Occasion.java:158-166 | replacing a list by one with the same elements does not change the comparison |
| Occasions.Normalize | microservice-occasion/src/main/java/net/wasdev/samples/microProfile/occasions/Occasion.java:384-442 | the string setters store "" for null and keep every other string |
| Occasions.SetIdFromString | microservice-occasion/src/main/java/net/wasdev/samples/microProfile/occasions/Occasion.java:368-378 | setId(String) stores an ObjectId only for a valid hex id, lower-cased, and otherwise keeps the current id |
| Occasions.SetIdFromObjectId | microservice-occasion/src/main/java/net/wasdev/samples/microProfile/occasions/Occasion.java:464-470 | setId(ObjectId) ignores null |
| Occasions.ContributionsFromJsonValue | microservice-occasion/src/main/java/net/wasdev/samples/microProfile/occasions/Occasion.java:299-313 | a missing contributions field is an empty list, a non-array one a ClassCastException |
| Occasions.SetContributions | microservice-occasion/src/main/java/net/wasdev/samples/microProfile/occasions/Occasion.java:444-458 | setContributions stores an empty list for null |
| Occasions.FromJson | microservice-occasion/src/main/java/net/wasdev/samples/microProfile/occasions/Occasion.java:299-313 | the JSON constructor fails exactly when the contributions field cannot be read, with its fault: not an array, an element that does not decode, or (from the log line at Occasion.java:141) a contribution without a string user id; otherwise every string field is the normalised JSON string, the id goes through setId, and the contributions are the decoded array (empty when absent), each with a user id |
| Occasions.CastList | microservice-occasion/src/main/java/net/wasdev/samples/microProfile/occasions/Occasion.java:315-329 | a missing DB list reads as empty |
| Occasions.FromDbo | microservice-occasion/src/main/java/net/wasdev/samples/microProfile/occasions/Occasion.java:315-329 | the DB constructor fails exactly when a cast of a field or a stored contribution fails, or a stored contribution has a null user id (the log line at Occasion.java:154); otherwise every string field is the normalised stored string, the id is taken only from an ObjectId, and the contributions are the decoded list, each with a user id |
| Occasions.Make | microservice-occasion/src/main/java/net/wasdev/samples/microProfile/occasions/Occasion.java:331-363 | the full constructor throws a NullPointerException exactly when a given contribution has a null user id (the log line at Occasion.java:351); otherwise it keeps the id, normalises every string to "" for null, and stores the given list or an empty one for null |
| Occasions.StringFields | microservice-occasion/src/main/java/net/wasdev/samples/microProfile/occasions/Occasion.java:479-529 | every non-empty string field is written under its key and no other key |
| Occasions.Document | microservice-occasion/src/main/java/net/wasdev/samples/microProfile/occasions/Occasion.java:492-526 | the document toDbo builds holds the non-empty strings, _id exactly when the id is set, and contributions exactly when the list is not empty, as the DB list of the contributions |
| Occasions.ToDbo | microservice-occasion/src/main/java/net/wasdev/samples/microProfile/occasions/Occasion.java:479-529 | toDbo throws a NullPointerException exactly when a contribution has a null user id (the log line at Occasion.java:490); otherwise it gives the document |
| Occasions.ToJson | microservice-occasion/src/main/java/net/wasdev/samples/microProfile/occasions/Occasion.java:531-587 | the JSON form exists exactly when every contribution has a user id; it holds the id as a string and the same fields as the DBObject |
| Occasions.ReadBackDbo | microservice-occasion/src/main/java/net/wasdev/samples/microProfile/occasions/Occasion.java:315-329 | a string field written by toDbo reads back through the DB constructor |
| Occasions.ReadBackJson | microservice-occasion/src/main/java/net/wasdev/samples/microProfile/occasions/Occasion.java:299-313 | a string field written by toJson reads back through the JSON constructor |
| Occasions.DboRoundTrip | microservice-occasion/src/main/java/net/wasdev/samples/microProfile/occasions/Occasion.java:479-529 | a stored occasion reads back unchanged through the DB constructor when every contribution has a user id, and with a NullPointerException otherwise; whatever toDbo produces reads back |
| Occasions.JsonRoundTrip | microservice-occasion/src/main/java/net/wasdev/samples/microProfile/occasions/Occasion.java:531-587 | every occasion whose contributions have user ids reads back from its JSON unchanged |
| Occasions.IdOnlyJson | microservice-occasion/src/main/java/net/wasdev/samples/microProfile/occasions/Occasion.java:531-587 | an occasion with only an id serialises to {"_id": id} |
| Occasions.Equals | microservice-occasion/src/main/java/net/wasdev/samples/microProfile/occasions/Occasion.java:595-608 | two occasions with ids are equal when the ids are; otherwise all fields are compared and contributions as sets |
| Occasions.EqualsIgnoresContributionOrder | microservice-occasion/src/main/java/net/wasdev/samples/microProfile/occasions/Occasion.java:595-608 | occasions without an id that differ only in the order of contributions are equal |
| FaultTolerance.Effects | microservice-occasion/src/main/java/net/wasdev/samples/microProfile/occasions/NotificationRetryBean.java:33-34 | the calls made by one attempt are the attempt's own calls |
| FaultTolerance.UniformEffects | microservice-occasion/src/main/java/net/wasdev/samples/microProfile/occasions/NotificationRetryBean.java:33-34 | attempts that each make the same single call make it once per attempt |
| FaultTolerance.Invocations | microservice-occasion/src/main/java/net/wasdev/samples/microProfile/occasions/NotificationRetryBean.java:33 | @Retry(maxRetries = n) invokes the method at least once and at most n + 1 times |
| FaultTolerance.RetryEffects | microservice-occasion/src/main/java/net/wasdev/samples/microProfile/occasions/NotificationRetryBean.java:33 | the calls of a retried invocation are those of its attempts, up to the first success or the last retry |
| FaultTolerance.RetryThenFallback | microservice-occasion/src/main/java/net/wasdev/samples/microProfile/occasions/NotificationRetryBean.java:33-34 | the retry loop with its fallback computes the retry-then-fallback outcome and calls |
| FaultTolerance.RetryAllFail | microservice-occasion/src/main/java/net/wasdev/samples/microProfile/occasions/NotificationRetryBean.java:33 | when every attempt fails, all n + 1 are made and the last failure is the result |
| FaultTolerance.RetryStopsAtSuccess | microservice-occasion/src/main/java/net/wasdev/samples/microProfile/occasions/NotificationRetryBean.java:33 | the first attempt to succeed ends the retries and is the result |
| FaultTolerance.FallbackAfterExhaustion | microservice-occasion/src/main/java/net/wasdev/samples/microProfile/occasions/NotificationRetryBean.java:33-34 | the fallback runs only after n + 1 failures, and its result is the method's |
| FaultTolerance.NoFallbackOnSuccess | microservice-occasion/src/main/java/net/wasdev/samples/microProfile/occasions/NotificationRetryBean.java:33-34 | a success within the retries never reaches the fallback |
| FaultTolerance.FailsOnlyThroughFallback | microservice-occasion/src/main/java/net/wasdev/samples/microProfile/occasions/NotificationRetryBean.java:33-34 | with a fallback that returns, the method never throws |
| Notification.LogPayload | microservice-occasion/src/main/java/net/wasdev/samples/microProfile/occasions/NotificationRetryBean.java:35-53 | the log request body is {"notification": message} |
| Notification.TweetPayload | microservice-occasion/src/main/java/net/wasdev/samples/microProfile/occasions/NotificationFallbackHandler.java:32-58 | the tweet request body nests the Twitter handle, the mention mode and the message under "notification" |
| Notification.LogAttempt | microservice-occasion/src/main/java/net/wasdev/samples/microProfile/occasions/NotificationRetryBean.java:35-53 | one attempt posts to the notification service; a response gives a "logged" OccasionResponse, an exception propagates |
| Notification.TweetAttempt | microservice-occasion/src/main/java/net/wasdev/samples/microProfile/occasions/NotificationFallbackHandler.java:32-58 | the fallback posts to the Twitter service; a response or a caught IOException gives a "tweeted" OccasionResponse |
| Notification.LogAttempts | microservice-occasion/src/main/java/net/wasdev/samples/microProfile/occasions/NotificationRetryBean.java:35-53 | the k-th retry posts the log request and sees the k-th response |
| Notification.MakeNotificationConnection | microservice-occasion/src/main/java/net/wasdev/samples/microProfile/occasions/NotificationRetryBean.java:33-53 | the guarded call posts to the logging service first; a first response ends it as logged; it returns a logged or tweeted response, or throws only what the tweet fallback throws, after the tweet post |
| Notification.ThreeFailuresThenTweet | microservice-occasion/src/main/java/net/wasdev/samples/microProfile/occasions/NotificationRetryBean.java:33-53 | three failed log posts are followed by one tweet request, whose outcome is the result |
| Notification.LoggedOnFirstResponse | microservice-occasion/src/main/java/net/wasdev/samples/microProfile/occasions/NotificationRetryBean.java:33-53 | the first successful log post ends the call with a "logged" response after k + 1 posts |
| Notification.FailureNeedsEveryPathDown | microservice-occasion/src/main/java/net/wasdev/samples/microProfile/occasions/NotificationFallbackHandler.java:32-58 | the notification throws exactly when all three log posts fail and the tweet post fails other than with an IOException |
| Notification.NotificationCalls | microservice-occasion/src/main/java/net/wasdev/samples/microProfile/occasions/NotificationRetryBean.java:33-53 | between one and three log posts are made, then one tweet post exactly when all three failed |
| Tweet.Cut | microservice-notification_v1_1/src/main/java/net/wasdev/sample/microprofile/notification/extended/NotificationRetryBean.java:69 | the cut is the last space at or before index 132, or -1 |
| Doc.LastIndexOf | microservice-notification_v1_1/src/main/java/net/wasdev/sample/microprofile/notification/extended/NotificationRetryBean.java:69 | String.lastIndexOf(c, from): the index of the last c at or before from, or -1 when there is none |
| Tweet.Chunk | microservice-notification_v1_1/src/main/java/net/wasdev/sample/microprofile/notification/extended/NotificationRetryBean.java:70 | a status cut at i is the first i characters and " ..." |
| Tweet.Step | microservice-notification_v1_1/src/main/java/net/wasdev/sample/microprofile/notification/extended/NotificationRetryBean.java:72 | the rest after a cut starts with "... " and is 3 longer than what followed the space |
| Tweet.ContinuationSpace | microservice-notification_v1_1/src/main/java/net/wasdev/sample/microprofile/notification/extended/NotificationRetryBean.java:69-72 | a continuation always has a space at index 3 |
| Tweet.SplitMessage | microservice-notification_v1_1/src/main/java/net/wasdev/sample/microprofile/notification/extended/NotificationRetryBean.java:60-77 | preProcessMessage throws exactly when a long message has no space before index 133, and otherwise gives at least one status |
| Tweet.FirstCut | microservice-notification_v1_1/src/main/java/net/wasdev/sample/microprofile/notification/extended/NotificationRetryBean.java:68-73 | a long message with a space is cut once into its first status and a continuation on which the loop ends |
| Tweet.NextCut | microservice-notification_v1_1/src/main/java/net/wasdev/sample/microprofile/notification/extended/NotificationRetryBean.java:68-73 | a long continuation is cut after its leading "... " and the statuses continue from the rest |
| Tweet.PreProcessMessage | microservice-notification_v1_1/src/main/java/net/wasdev/sample/microprofile/notification/extended/NotificationRetryBean.java:60-77 | the loop with its two ifs computes the statuses of the message |
| Tweet.ContinuationChunksFacts | microservice-notification_v1_1/src/main/java/net/wasdev/sample/microprofile/notification/extended/NotificationRetryBean.java:60-77 | the statuses of a continuation fit 140 characters, all but the last are at most 136 long and end with " ...", all begin with "... ", and they read back to the continuation |
| Tweet.LongMessageChunks | microservice-notification_v1_1/src/main/java/net/wasdev/sample/microprofile/notification/extended/NotificationRetryBean.java:60-77 | a long message gives at least two statuses that read back to it |
| Tweet.SplitMessageFacts | microservice-notification_v1_1/src/main/java/net/wasdev/sample/microprofile/notification/extended/NotificationRetryBean.java:60-77 | every status fits 140 characters, every status but the last is cut at or before index 132 (at most 136 characters with " ..."), a short message is posted whole, and reading the statuses in order gives the message back |
| Tweet.StuckContinuation | microservice-notification_v1_1/src/main/java/net/wasdev/sample/microprofile/notification/extended/NotificationRetryBean.java:63-74 | a long continuation without a space between 4 and 132 is cut at 3 and comes back unchanged, so the loop never ends |
| Tweet.SomeMessagesNeverEnd | microservice-notification_v1_1/src/main/java/net/wasdev/sample/microprofile/notification/extended/NotificationRetryBean.java:63-74 | such inputs exist: "ab " followed by 140 letters |
| Tweet.TwitterCalls | microservice-notification_v1_1/src/main/java/net/wasdev/sample/microprofile/notification/extended/NotificationRetryBean.java:38-44 | tweet posts each status in order, then one direct message with the whole message |
| Tweet.FirstFailure | microservice-notification_v1_1/src/main/java/net/wasdev/sample/microprofile/notification/extended/NotificationRetryBean.java:39-47 | the first Twitter call that fails, if any, ends the posting |
| Tweet.Tweet | microservice-notification_v1_1/src/main/java/net/wasdev/sample/microprofile/notification/extended/NotificationRetryBean.java:31-51 | the method's loop makes the calls of one tweet attempt and fails at the first failing call |
| Tweet.TweetAttempt | microservice-notification_v1_1/src/main/java/net/wasdev/sample/microprofile/notification/extended/NotificationRetryBean.java:31-51 | one invocation succeeds exactly when the split works and every Twitter call succeeds, and then makes exactly the status updates and the direct message; a failure makes a prefix of those calls ending at the failing one, then logs one warning |
| Tweet.FallbackAttempt | microservice-notification_v1_1/src/main/java/net/wasdev/sample/microprofile/notification/extended/NotificationFallbackHandler.java:22-28 | the fallback handler writes the message to the fallback log and returns |
| Tweet.MakeCalls | microservice-notification_v1_1/src/main/java/net/wasdev/sample/microprofile/notification/extended/NotificationRetryBean.java:39-48 | the calls succeed exactly when every call does; otherwise the calls made stop at the first failing one, which is logged as a warning and rethrown |
| Tweet.TweetAttempts | microservice-notification_v1_1/src/main/java/net/wasdev/sample/microprofile/notification/extended/NotificationRetryBean.java:29-30 | the k-th retry of tweet sees the k-th run of Twitter outcomes |
| Tweet.GuardedTweet | microservice-notification_v1_1/src/main/java/net/wasdev/sample/microprofile/notification/extended/NotificationFallbackHandler.java:22-28 | with its fallback handler tweet never throws |
| Tweet.ShortMessageDelivered | microservice-notification_v1_1/src/main/java/net/wasdev/sample/microprofile/notification/extended/NotificationRetryBean.java:31-51 | a short message with Twitter up is one status update and one direct message |
| Tweet.FirstCallRefused | microservice-notification_v1_1/src/main/java/net/wasdev/sample/microprofile/notification/extended/NotificationRetryBean.java:38-47 | an invocation whose first call fails posts only the first status and logs the warning |
| Tweet.TwitterDown | microservice-notification_v1_1/src/main/java/net/wasdev/sample/microprofile/notification/extended/NotificationRetryBean.java:29-51 | with Twitter down the first status is tried three times, each logged, then the fallback logs the message |
| Tweet.UncuttableMessageLogged | microservice-notification_v1_1/src/main/java/net/wasdev/sample/microprofile/notification/extended/NotificationFallbackHandler.java:22-28 | an uncuttable long message fails three times before posting anything and ends in the fallback log |
| Tweet.RetryRepostsStatuses | microservice-notification_v1_1/src/main/java/net/wasdev/sample/microprofile/notification/extended/NotificationRetryBean.java:29-51 | a retry after a failed direct message posts every status again |
| Users.TrimStart | microservice-user/src/main/java/net/wasdev/sample/microprofile/user/User.java:109-144 | leading characters up to U+0020 are removed, as String.trim does |
| Users.TrimEnd | microservice-user/src/main/java/net/wasdev/sample/microprofile/user/User.java:109-144 | trailing characters up to U+0020 are removed |
| Users.Trim | microservice-user/src/main/java/net/wasdev/sample/microprofile/user/User.java:109-144 | the trimmed name starts and ends above U+0020, and is empty exactly for a blank name |
| Users.FromTwitter | microservice-user/src/main/java/net/wasdev/sample/microprofile/user/User.java:109-144 | a Twitter user has the handle as user name and handle, empty password fields and wish list, no id, and the split display name as first and last name |
| Users.SplitTrimmedFacts | microservice-user/src/main/java/net/wasdev/sample/microprofile/user/User.java:109-144 | a trimmed name cut at its last space: the last name has no space, and first + " " + last is the name; without a space all of it is the last name |
| Users.SplitName | microservice-user/src/main/java/net/wasdev/sample/microprofile/user/User.java:109-144 | the display name is split at its last space after trimming: the last name has no space and first + " " + last is the trimmed name; without a space all of it is the last name; a null or blank name gives two empty names |
| Users.NullableString | microservice-user/src/main/java/net/wasdev/sample/microprofile/user/User.java:80-99 | an absent field reads as null, a string as itself, anything else as a ClassCastException |
| Users.FromJson | microservice-user/src/main/java/net/wasdev/sample/microprofile/user/User.java:80-99 | the JSON constructor fails exactly when id, user name, hash or salt is present and not a string; those fields are null when absent and the JSON string otherwise; first and last name, handle and wish list default to "", the flag to false |
| Users.FromDbo | microservice-user/src/main/java/net/wasdev/sample/microprofile/user/User.java:67-77 | the DB constructor takes the ObjectId as the id and needs the Twitter-login flag |
| Users.PublicJson | microservice-user/src/main/java/net/wasdev/sample/microprofile/user/User.java:182-193 | the public JSON never holds the password hash or salt, and exists exactly when the public fields are set |
| Users.DBObject | microservice-user/src/main/java/net/wasdev/sample/microprofile/user/User.java:196-211 | the DBObject has the stored fields and _id exactly when asked, failing on an id that is not a valid ObjectId |
| Users.DBObjectForModify | microservice-user/src/main/java/net/wasdev/sample/microprofile/user/User.java:217-238 | a Twitter user's modification touches only the names and wish list; otherwise the handle and the set credentials too |
| Users.TwitterUserKeepsCredentials | microservice-user/src/main/java/net/wasdev/sample/microprofile/user/User.java:217-238 | the modification document of a Twitter-login user never holds its handle, user name or password |
| Users.DboRoundTrip | microservice-user/src/main/java/net/wasdev/sample/microprofile/user/User.java:196-211 | a user with a lower-case ObjectId id reads back from its DBObject unchanged |
| Users.PublicJsonRoundTrip | microservice-user/src/main/java/net/wasdev/sample/microprofile/user/User.java:182-193 | the public JSON reads back as the user without its password fields |
| Groups.MemberFromDbo | microservice-group/src/main/java/net/wasdev/samples/microprofile/group/Group.java:43-52 | a stored member is a string or null; anything else is a ClassCastException |
| Groups.MemberFromJson | microservice-group/src/main/java/net/wasdev/samples/microprofile/group/Group.java:59-74 | a JSON member must be a string |
| Groups.MembersFromDbo | microservice-group/src/main/java/net/wasdev/samples/microprofile/group/Group.java:43-52 | the members are read element by element, in order |
| Groups.MembersFromJson | microservice-group/src/main/java/net/wasdev/samples/microprofile/group/Group.java:59-74 | the JSON members are read element by element, in order |
| Groups.DbMembersList | microservice-group/src/main/java/net/wasdev/samples/microprofile/group/Group.java:43-52 | the stored members list must be present and a list |
| Groups.JsonMembersList | microservice-group/src/main/java/net/wasdev/samples/microprofile/group/Group.java:59-74 | an absent JSON members array is an empty list |
| Groups.DecodeDbo | microservice-group/src/main/java/net/wasdev/samples/microprofile/group/Group.java:43-52 | the DB constructor takes the ObjectId as the id and one member per stored element |
| Groups.DecodeJson | microservice-group/src/main/java/net/wasdev/samples/microprofile/group/Group.java:59-74 | the JSON constructor sets the id exactly when present and an empty member list when absent |
| Groups.EncodeJson | microservice-group/src/main/java/net/wasdev/samples/microprofile/group/Group.java:81-93 | getJson succeeds exactly when id, name and every member are set, with keys id, name, members |
| Groups.EncodeDbo | microservice-group/src/main/java/net/wasdev/samples/microprofile/group/Group.java:102-116 | getDBObject fails exactly when asked for an id that is not a valid ObjectId |
| Groups.JsonRoundTrip | microservice-group/src/main/java/net/wasdev/samples/microprofile/group/Group.java:81-93 | getJson reads back through the JSON constructor |
| Groups.DboRoundTrip | microservice-group/src/main/java/net/wasdev/samples/microprofile/group/Group.java:102-116 | getDBObject with the id reads back through the DB constructor |
| Groups.Group.FromDbo | microservice-group/src/main/java/net/wasdev/samples/microprofile/group/Group.java:43-52 | the constructor's loop fills a fresh members array with the decoded members |
| Groups.Group.FromJson | microservice-group/src/main/java/net/wasdev/samples/microprofile/group/Group.java:59-74 | the JSON constructor's loop fills a fresh members array |
| Groups.Group.GetJson | microservice-group/src/main/java/net/wasdev/samples/microprofile/group/Group.java:81-93 | the loop builds the JSON of the group, which reads back to the group |
| Groups.Group.GetDBObject | microservice-group/src/main/java/net/wasdev/samples/microprofile/group/Group.java:102-116 | the loop builds the DBObject of the group, which reads back to the group |
| Storage.ApplySet | microservice-occasion/src/main/java/net/wasdev/samples/microProfile/occasions/OccasionResource.java:325-333 | $set replaces or adds the update's fields and keeps the others |
| Storage.OccasionStore.Insert | microservice-occasion/src/main/java/net/wasdev/samples/microProfile/occasions/OccasionResource.java:137 | insert stores the document under a fresh ObjectId and refuses a duplicate key |
| Storage.OccasionStore.Remove | microservice-occasion/src/main/java/net/wasdev/samples/microProfile/occasions/OccasionResource.java:395-399 | remove by id deletes the document with that id, reporting one document or none |
| Storage.OccasionStore.FindAndModify | microservice-occasion/src/main/java/net/wasdev/samples/microProfile/occasions/OccasionResource.java:325-333 | findAndModify returns null for an unknown id, refuses to change _id, and otherwise applies $set and returns the new document |
| Orchestration.TotalAmount | microservice-occasion/src/main/java/net/wasdev/samples/microProfile/occasions/Orchestrator.java:215-221 | the loop adds up the amounts of all contributions |
| Orchestration.SumConcat | microservice-occasion/src/main/java/net/wasdev/samples/microProfile/occasions/Orchestrator.java:215-221 | the total of two lists put together is the sum of their totals |
| Orchestration.TotalOfTwo | microservice-occasion/src/main/java/net/wasdev/samples/microProfile/occasions/Orchestrator.java:215-221 | contributions of 30 and 20 total 50 |
| Orchestration.CreateEventNotificationMessage | microservice-occasion/src/main/java/net/wasdev/samples/microProfile/occasions/Orchestrator.java:291-311 | the message starts with the congratulation, ends with the wish-list sentence and a period, and has the template's length plus its fields |
| Orchestration.Fetch | microservice-occasion/src/main/java/net/wasdev/samples/microProfile/occasions/Orchestrator.java:184-213 | a lookup succeeds when the service answers with an object; a missing answer or an I/O error becomes a NullPointerException |
| Orchestration.GroupName | microservice-occasion/src/main/java/net/wasdev/samples/microProfile/occasions/Orchestrator.java:184-196 | the group name is the string in the group's name field |
| Orchestration.FetchRecipient | microservice-occasion/src/main/java/net/wasdev/samples/microProfile/occasions/Orchestrator.java:198-213 | the recipient's first and last name, Twitter handle and wish list are the user's string fields |
| Orchestration.ResponseOf | microservice-occasion/src/main/java/net/wasdev/samples/microProfile/occasions/Orchestrator.java:233-245 | a thrown notification becomes an error OccasionResponse holding the throwable |
| Orchestration.Workflow | microservice-occasion/src/main/java/net/wasdev/samples/microProfile/occasions/Orchestrator.java:176-251 | notify mints the orchestrator token, GETs the group and then the recipient, throws exactly when a lookup fails (with that fault, after no further call), and otherwise posts the notification and returns its response or the error response |
| Orchestration.WorkflowSends | microservice-occasion/src/main/java/net/wasdev/samples/microProfile/occasions/Orchestrator.java:176-251 | past both lookups the run is the three lookup calls followed by the notification request's calls |
| Orchestration.WorkflowCalls | microservice-occasion/src/main/java/net/wasdev/samples/microProfile/occasions/Orchestrator.java:176-251 | notify mints a token, reads the group, reads the recipient, then makes the notification's one to three log posts and at most one tweet post |
| Orchestration.FailsOnlyInLookups | microservice-occasion/src/main/java/net/wasdev/samples/microProfile/occasions/Orchestrator.java:176-251 | notify throws exactly when the group or the recipient lookup fails, and then posts nothing |
| Orchestration.ErrorResponseWhenNotificationFails | microservice-occasion/src/main/java/net/wasdev/samples/microProfile/occasions/Orchestrator.java:233-245 | when every notification path fails, notify returns the error response with the fault |
| Orchestration.ParseFailureSchedulesNothing | microservice-occasion/src/main/java/net/wasdev/samples/microProfile/occasions/Orchestrator.java:138-143 | a date that does not parse schedules nothing and throws ParseException |
| Orchestration.ScheduleRecordsJob | microservice-occasion/src/main/java/net/wasdev/samples/microProfile/occasions/Orchestrator.java:125-155 | scheduling adds a new timer at 08:00 of the date, or now if that has passed, and records it under the id, keeping other timers and entries |
| Orchestration.RescheduleOrphansOldTimer | microservice-occasion/src/main/java/net/wasdev/samples/microProfile/occasions/Orchestrator.java:147-150 | scheduling an id again replaces its table entry and leaves the old timer running |
| Orchestration.NullIdLeavesUntrackedTimer | microservice-occasion/src/main/java/net/wasdev/samples/microProfile/occasions/Orchestrator.java:147-150 | an occasion without an id throws after its timer was created, so that timer is in no table entry |
| Orchestration.Schedule | microservice-occasion/src/main/java/net/wasdev/samples/microProfile/occasions/Orchestrator.java:125-155 | a date that does not parse changes nothing; otherwise one new timer, due at the parsed time or now, is added under the next handle, every other timer is kept, and the id is mapped to it, or, for a null id, the table is left unchanged and NullPointerException is thrown |
| Orchestration.CancelRemovesEntry | microservice-occasion/src/main/java/net/wasdev/samples/microProfile/occasions/Orchestrator.java:157-164 | cancel removes the id's entry and stops its timer, or throws when the id has none |
| Orchestration.Cancel | microservice-occasion/src/main/java/net/wasdev/samples/microProfile/occasions/Orchestrator.java:157-164 | cancelling an id with no entry throws and changes nothing; otherwise exactly that entry and its timer are removed |
| Orchestration.Fire | microservice-occasion/src/main/java/net/wasdev/samples/microProfile/occasions/Orchestrator.java:172-174 | a timer that runs leaves the pending set; the table and every other timer are kept |
| Orchestration.FiringKeepsEntries | microservice-occasion/src/main/java/net/wasdev/samples/microProfile/occasions/Orchestrator.java:172-174 | a timer that fires leaves the table unchanged |
| Orchestration.StepsKeepValid | microservice-occasion/src/main/java/net/wasdev/samples/microProfile/occasions/Orchestrator.java:74 | every table entry names a live or fired timer issued earlier, before and after each step |
| Orchestration.Orchestrator.ScheduleOccasion | microservice-occasion/src/main/java/net/wasdev/samples/microProfile/occasions/Orchestrator.java:125-155 | the method changes the table and timers as the scheduling step does |
| Orchestration.Orchestrator.CancelOccasion | microservice-occasion/src/main/java/net/wasdev/samples/microProfile/occasions/Orchestrator.java:157-164 | the method changes the table and timers as the cancel step does |
| Orchestration.Orchestrator.Connect | microservice-occasion/src/main/java/net/wasdev/samples/microProfile/occasions/Orchestrator.java:233-246 | the notification request records exactly the calls of makeNotificationConnection and answers with its response, or with the error response when it threw |
| Orchestration.Orchestrator.Notify | microservice-occasion/src/main/java/net/wasdev/samples/microProfile/occasions/Orchestrator.java:176-251 | the method makes the workflow's calls, returns its outcome, and deletes the occasion after a notification |
| Orchestration.Orchestrator.FireJob | microservice-occasion/src/main/java/net/wasdev/samples/microProfile/occasions/Orchestrator.java:172-174 | a firing timer leaves the pending set, runs the workflow, and deletes the occasion's record exactly when the workflow returned and the occasion has an id |
| Orchestration.Orchestrator.RunOccasion | microservice-occasion/src/main/java/net/wasdev/samples/microProfile/occasions/Orchestrator.java:338-349 | running an occasion without a timer throws and changes nothing; otherwise its timer is cancelled and it is notified |
| Orchestration.Orchestrator.SetOccasionResource | microservice-occasion/src/main/java/net/wasdev/samples/microProfile/occasions/Orchestrator.java:324-336 | the store and the service URLs are set |
| Resource.ValidateJwt | microservice-occasion/src/main/java/net/wasdev/samples/microProfile/occasions/OccasionResource.java:402-417 | a request passes exactly when its JWT names the users or orchestrator group; otherwise 401 |
| Resource.BuildPostRunResponse | microservice-occasion/src/main/java/net/wasdev/samples/microProfile/occasions/OccasionResource.java:206-223 | the run response is 200 with runSuccess for a logged or tweeted notification, runError otherwise |
| Resource.NotificationErrorIsReported | microservice-occasion/src/main/java/net/wasdev/samples/microProfile/occasions/OccasionResource.java:206-223 | an error notification is reported under runError |
| Resource.Documents | microservice-occasion/src/main/java/net/wasdev/samples/microProfile/occasions/OccasionResource.java:78-79 | the cursor yields the stored documents in its order |
| Resource.ReloadTable | microservice-occasion/src/main/java/net/wasdev/samples/microProfile/occasions/OccasionResource.java:71-94 | reloading records exactly the ids of the documents whose date parses and whose id is set |
| Resource.ReloadNeedsDecodableDocuments | microservice-occasion/src/main/java/net/wasdev/samples/microProfile/occasions/OccasionResource.java:71-94 | a reload that completes read every document |
| Resource.ReloadStops | microservice-occasion/src/main/java/net/wasdev/samples/microProfile/occasions/OccasionResource.java:80-91 | a document that cannot be read stops the reload with its fault |
| Resource.ReloadFailureSticks | microservice-occasion/src/main/java/net/wasdev/samples/microProfile/occasions/OccasionResource.java:80-91 | a failure on a prefix of the cursor is the failure of the reload |
| Resource.OccasionResource.AfterCreate | microservice-occasion/src/main/java/net/wasdev/samples/microProfile/occasions/OccasionResource.java:71-94 | the loop schedules the stored occasions in cursor order and hands the store and URLs to the orchestrator |
| Resource.OccasionResource.CreateOccasion | microservice-occasion/src/main/java/net/wasdev/samples/microProfile/occasions/OccasionResource.java:96-157 | the POST answers 401, 400 for a missing body or a body with an id, or stores the occasion under a new id, schedules it and returns the id |
| Resource.OccasionResource.RunOccasion | microservice-occasion/src/main/java/net/wasdev/samples/microProfile/occasions/OccasionResource.java:159-204 | the run endpoint answers 401, 400 without body or id, throws for an occasion without a timer, else cancels and notifies it |
| Resource.OccasionResource.UpdateOccasion | microservice-occasion/src/main/java/net/wasdev/samples/microProfile/occasions/OccasionResource.java:301-349 | the PUT answers 401, 400 for a bad id or empty body, fails with a changed _id without touching the store or the timers, applies $set, cancels the timer (a missing record then throws), reschedules the stored occasion, and answers 400 for an unparsable date |
| Resource.OccasionResource.DeleteRecord | microservice-occasion/src/main/java/net/wasdev/samples/microProfile/occasions/OccasionResource.java:395-399 | deletion reports whether a document was removed |
| Resource.OccasionResource.DeleteOccasion | microservice-occasion/src/main/java/net/wasdev/samples/microProfile/occasions/OccasionResource.java:351-388 | the DELETE answers 401, 400 for a bad or unknown id, otherwise removes the document and cancels its timer |
| Forms.DaysInMonth | front-end-ui/src/app/occasion/occasion-create.component.ts:174-189 | the month lengths of the Gregorian calendar, 29 in February of a leap year |
| Forms.IsValidDay | front-end-ui/src/app/occasion/occasion-create.component.ts:174-189 | the table method accepts exactly the days that exist in the month; NaN parts are refused |
| Forms.LeapDay | front-end-ui/src/app/occasion/occasion-edit.component.ts:214-229 | February 29 is accepted exactly in leap years |
| Forms.ValidateDate | front-end-ui/src/app/occasion/occasion-create.component.ts:145-172 | an accepted date has a valid day and a year not before the current one; the error text is "Invalid date given." |
| Forms.AcceptedDates | front-end-ui/src/app/occasion/occasion-edit.component.ts:185-212 | the dates accepted, as one condition on year, month and day |
| Forms.UnparsableYearAccepted | front-end-ui/src/app/occasion/occasion-create.component.ts:145-172 | a date whose year does not parse passes every year check |
| Forms.PreviousMonthAccepted | front-end-ui/src/app/occasion/occasion-create.component.ts:160-163 | the month is compared 1-based against the 0-based getMonth, so the previous month passes |
| Forms.FutureDayRefusedOnSaturday | front-end-ui/src/app/occasion/occasion-create.component.ts:164-168 | the day is compared against the weekday, so a future day can be refused |
| Forms.FirstContributionOf | front-end-ui/src/app/occasion/occasion-edit.component.ts:110-117 | the first contribution made by the user, if any |
| Forms.UpdateOrAppend | front-end-ui/src/app/occasion/occasion-edit.component.ts:110-120 | the list grows by at most one |
| Forms.UpdateOrAppendFacts | front-end-ui/src/app/occasion/occasion-edit.component.ts:110-120 | after an edit the user's first entry, or a new last entry when there was none, carries the new amount; every other entry is kept, and the list grows exactly when the user had none |
| Forms.UpdateOrAppendIdempotent | front-end-ui/src/app/occasion/occasion-edit.component.ts:110-120 | submitting the same amount twice changes nothing more |
| Forms.OccasionCreateForm.OnCreateOccasion | front-end-ui/src/app/occasion/occasion-create.component.ts:93-107 | a refused date only sets the message; an accepted one replaces the contributions by the organizer's single one |
| Forms.OccasionEditForm.OnUpdateOccasion | front-end-ui/src/app/occasion/occasion-edit.component.ts:104-125 | a refused date only sets the message; an accepted one updates the user's first contribution or appends one; when the loaded occasion has no contributions (undefined after an empty list) the handler throws a TypeError and changes nothing |

## Left out

- HTTP transport, JAX-RS plumbing, log output, and the JWT library. A log message that throws while it is being built is modelled, because it ends the operation. The JWT check is modelled on the set of groups that the token carries. The text of the 401 body, which lists the groups through `Set.toString`, is left out.
- Threads and timers. The executor's `Future`s are numbered handles in a pending map. Running a timer is the explicit step `Orchestrator.FireJob`. Races between a firing timer and the table update, which the source's own TODO mentions, are not modelled.
- The clock, `SimpleDateFormat.parse`, currency formatting, and the answers of the group, user, notification and Twitter services. These are parameters of the model, so their behaviour is not modelled.
- `double` amounts are `real`. Rounding and NaN of Java doubles are not modelled.
- MongoDB is a map from ids to documents. Cursor order is a parameter. The server's refusal of an empty `$set` is not modelled.
- The `@RequestScoped` lifecycle, where a new resource instance runs `afterCreate` per request, is one explicit call to `OccasionResource.AfterCreate`.
- Retrieval endpoints (GET by id and by group), the user and group services' REST resources, and the page plumbing of the front end are not part of this model: the Angular routing, the service calls sent after a submit, and the member lists.
- JavaScript's `split('-')` and `parseInt` are not modelled. The date check takes the three parsed numbers, with None for NaN. `Number(contributionAmount)` is taken as a given `real`.
- The edit page changes a shared `Contribution` object in place. The model keeps the list as a sequence of values, so aliasing of that object is not captured.
- Tweet.PreProcessMessage, Tweet.SplitMessage, Tweet.Tweet: defined only for messages on which the source's loop ends (`SplitTerminates`). On the others it cuts at index 3 for ever, as `Tweet.SomeMessagesNeverEnd` shows. The model does not describe a call that never returns.
- Tweet.Cut: counts characters as Unicode code points. Java's `lastIndexOf(" ", 132)` counts UTF-16 code units, so the cut index differs for text outside the Basic Multilingual Plane.
- Tweet.SplitMessage: the 140-character test and the cut at 132 count code points, not the UTF-16 units of `String.length()`. A message of 139 BMP characters and one emoji is 141 units long in Java and is split there, but the model posts it whole.
- Tweet.PreProcessMessage: the same unit difference as `Tweet.SplitMessage`. The loop is proved equal to it.
- Tweet.SplitMessageFacts: "every status fits 140 characters" holds in code points. It is not established in UTF-16 units for text outside the Basic Multilingual Plane.
- Doc.LastIndexOf: positions are code-point indices, not UTF-16 indices.

## Behaviour of the code worth knowing

The model follows the code in each of these points:

- `Occasion.java:141`, `:154`, `:351` and `:490` build a log message with `Contribution.listToString` whether or not that level is enabled. `listToString` calls `toJson()` on each contribution, and the JSON builder refuses a null user id. So decoding a contribution list, the eight-argument constructor and `toDbo` all throw a NullPointerException for a contribution without a user id. A request body such as `{"contributions":[{"amount":5}]}` is refused before anything is stored (`Occasions.ContributionsFromJson`, `Occasions.Make`, `Occasions.ToDbo`).
- `OccasionResource.java:117` answers 400 "Empty payload" when the body is missing or its `toString()` is empty. `JsonObject.toString()` of `{}` is `"{}"`, so only a missing body gets that answer (`Resource.OccasionResource.CreateOccasion`).
- `OccasionResource.java:338` and `OccasionResource.java:380` cancel the timer with the id string exactly as received. The table is keyed at `Orchestrator.java:149-150` by the lower-case `ObjectId.toString()`, so an upper-case id finds no entry and the cancel throws.
- `OccasionResource.java:184-197` notifies with the occasion decoded from the request body, not with the stored one (`Resource.OccasionResource.RunOccasion`).
- `Orchestrator.java:172-174` runs the workflow when a timer fires and never removes the table entry; only `cancelOccasion` (`Orchestrator.java:160`) does (`Orchestration.Fire`, `Orchestration.FiringKeepsEntries`).
- `Orchestrator.java:147-150` starts the timer before reading the id, so an occasion with a null id throws after its timer was started, and that timer is in no table entry (`Orchestration.NullIdLeavesUntrackedTimer`).
- `Orchestrator.java:247-249` deletes the occasion's record after every notify that got past the lookups, whatever the notification outcome (`Orchestration.Orchestrator.Notify`).
