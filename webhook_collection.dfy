/**
 * The registry of webhooks (webhook_collection.go): an append-only list,
 * in registration order, with no deduplication.
 */
module WebhookCollection {
  import opened Webhook

  /** The package-level `webhooks` slice. */
  class WebhookRegistry<H> {
    var webhooks: seq<Webhook<H>>

    /** The list starts empty. */
    constructor ()
      ensures webhooks == []
    {
      webhooks := [];
    }

    /** `RegisterWebhook`: appends `webhook` as the last entry. */
    method RegisterWebhook(webhook: Webhook<H>)
      modifies this
      ensures webhooks == old(webhooks) + [webhook]
    {
      webhooks := webhooks + [webhook];
    }

    /** `GetRegisteredWebhooks`: every registration, in registration order. */
    method GetRegisteredWebhooks() returns (registered: seq<Webhook<H>>)
      ensures registered == webhooks
    {
      registered := webhooks;
    }
  }

  /** Registering the same path twice keeps both entries, in order. */
  method RegisterSamePathTwice<H>(registry: WebhookRegistry<H>, first: Webhook<H>, second: Webhook<H>)
    requires first.path == second.path
    modifies registry
    ensures registry.webhooks == old(registry.webhooks) + [first, second]
  {
    registry.RegisterWebhook(first);
    registry.RegisterWebhook(second);
  }
}
