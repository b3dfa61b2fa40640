/** The literal values shared by the chat client's components. */
module Constants {
  import opened JsString

  /** The URL used when nothing usable is stored: a placeholder to be
      replaced in the settings. It is the text
      `https://YOUR_N8N_INSTANCE.com/webhook/YOUR_PATH`, written around the
      marker it must carry. */
  const DefaultWebhookUrl: string := "https://" + PlaceholderMarker + ".com/webhook/YOUR_PATH"

  /** The one key under which the webhook URL is persisted, for both the read
      at start-up and the write on save. */
  const LocalStorageKey: string := "n8nWebhookUrl"

  const BotGreeting: string := "Hello! I'm a chatbot connected to an n8n workflow. How can I help you today?"

  const BotErrorMessage: string := "Sorry, I'm having trouble connecting right now. Please check your webhook URL in settings or try again in a moment."

  /** The marker whose presence in a URL means "not configured yet". Both
      configuration checks, the service's and the application's, look for it. */
  const PlaceholderMarker: string := "YOUR_N8N_INSTANCE"

  /** The default URL carries the placeholder marker, so every configuration
      check classes it as not configured. */
  lemma DefaultUrlContainsMarker()
    ensures Contains(DefaultWebhookUrl, PlaceholderMarker)
  {
    OccursBetween("https://", PlaceholderMarker, ".com/webhook/YOUR_PATH");
  }
}
