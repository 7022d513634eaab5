/// What the occasion service sends and receives over HTTP, and the result of
/// one notification request (OccasionResponse.java).
module Responses {
  import opened Doc

  /** A JAX-RS response as far as the model needs it: status and body. */
  datatype HttpResponse = HttpResponse(status: int, body: string)

  /** One outgoing call of the orchestrator, in the order it is made. */
  datatype Call =
    | MintToken(group: string, subject: string)          // jwtBuilder.buildCompactJWT(groupName, userName)
    | Get(url: string, token: string)                    // makeConnection("GET", ...)
    | Post(url: string, payload: Object, token: string)  // makeConnection("POST", ...)

  const NotificationTypeLog := "Notification request logged."
  const NotificationTypeTweet := "Notification request tweeted."
  const NotificationTypeError :=
    "Your occasion was processed but a notification request was not sent. The notification service is not available."

  /** The outcome of one notification request: the response of the service
      that took it (absent when none did), which service that was, and the
      exception when none did. */
  datatype OccasionResponse = OccasionResponse(
    notificationResponse: Option<HttpResponse>,
    notificationType: string,
    notificationThrowable: Option<Fault>)
}
