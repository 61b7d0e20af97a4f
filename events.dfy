/**
 * `WebhookEvent`: what the delivery engine publishes. Only the data it
 * carries is modelled; the host's event bus is a trace in the service.
 */
module Events {
  import opened Responses
  import opened Embeds

  /** `WebhookEvent.WebhookEventType`. */
  datatype WebhookEventType = PreSend | Sent | Failed | RateLimited

  /** An event names the webhook, carries the submitted embeds and an outcome. */
  datatype WebhookEvent = WebhookEvent(
    webhookName: string,
    embeds: seq<WebhookEmbed>,
    response: WebhookResponse,
    eventType: WebhookEventType)

  /** The phases that end a send attempt. */
  predicate IsTerminal(t: WebhookEventType) {
    t != PreSend
  }
}
