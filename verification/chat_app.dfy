/** The chat application's state: the active webhook URL, the browser's
    persistent storage, the conversation, the busy flag and whether the
    settings dialog is open. Each handler of the application is a method;
    the asynchronous send is split at its one suspension point into
    `BeginSend` and `ReceiveReply`. */
module ChatApp {
  import opened JsString
  import opened Constants
  import N8nService

  datatype Sender = User | Bot

  /** A message id: a fixed name, or a prefix followed by the clock reading
      taken when the message was made (the clock is a parameter). */
  datatype MessageId = Fixed(name: string) | Stamped(prefix: string, millis: int)

  datatype Message = Message(id: MessageId, text: string, sender: Sender)

  const Greeting: Message := Message(Fixed("initial-greeting"), BotGreeting, Bot)

  const SettingsSaved: Message := Message(Fixed("config-saved"), "Settings saved! " + BotGreeting, Bot)

  /** `isUrlConfigured`: a non-empty URL without the placeholder marker. */
  predicate IsUrlConfigured(url: string) {
    url != "" && !Contains(url, PlaceholderMarker)
  }

  /** The application's check and the service's own check agree on every URL. */
  lemma ConfigurationChecksAgree(url: string)
    ensures IsUrlConfigured(url) <==> !N8nService.IsUnconfigured(url)
  {
  }

  /** Both checks class the default URL as not configured. */
  lemma DefaultUrlUnconfigured()
    ensures !IsUrlConfigured(DefaultWebhookUrl)
    ensures N8nService.IsUnconfigured(DefaultWebhookUrl)
  {
    DefaultUrlContainsMarker();
  }

  /** The URL read at start-up: the stored value when there is one and it is
      not empty (a stored empty string is falsy and falls back too), else
      the default placeholder. */
  function InitialUrl(storage: map<string, string>): (r: string)
    ensures r != ""
    ensures LocalStorageKey in storage && storage[LocalStorageKey] != "" ==> r == storage[LocalStorageKey]
    ensures LocalStorageKey !in storage || storage[LocalStorageKey] == "" ==> r == DefaultWebhookUrl
  {
    if LocalStorageKey in storage && storage[LocalStorageKey] != "" then storage[LocalStorageKey]
    else DefaultWebhookUrl
  }

  /** The active URL is what a reload would read back from storage, except
      after saving an empty URL: then storage holds the empty string, and a
      reload reads the default placeholder instead. */
  ghost predicate Persisted(url: string, storage: map<string, string>) {
    || url == InitialUrl(storage)
    || (LocalStorageKey in storage && storage[LocalStorageKey] == "" && url == "")
  }

  /** A reload never changes whether the application counts as configured. */
  lemma ReloadKeepsConfiguration(url: string, storage: map<string, string>)
    requires Persisted(url, storage)
    ensures IsUrlConfigured(InitialUrl(storage)) == IsUrlConfigured(url)
  {
    if url != InitialUrl(storage) {
      DefaultUrlUnconfigured();
    }
  }

  /** What a reload reads after saving `newUrl`: the trimmed URL, or the
      default placeholder when the trimmed URL is empty. */
  lemma SaveThenReload(storage: map<string, string>, newUrl: string)
    ensures var reloaded := InitialUrl(storage[LocalStorageKey := Trim(newUrl)]);
            && (IsBlank(newUrl) ==> reloaded == DefaultWebhookUrl)
            && (!IsBlank(newUrl) ==> reloaded == Trim(newUrl))
            && IsUrlConfigured(reloaded) == IsUrlConfigured(Trim(newUrl))
  {
    ReloadKeepsConfiguration(Trim(newUrl), storage[LocalStorageKey := Trim(newUrl)]);
  }

  /** Saving `" https://x.test/hook "` activates and stores
      `"https://x.test/hook"`, which counts as configured. */
  lemma SaveExample()
    ensures Trim(" https://x.test/hook ") == "https://x.test/hook"
    ensures IsUrlConfigured("https://x.test/hook")
  {
    TrimExample();
    ExampleUrlConfigured();
  }

  /** The trimming half of the example. */
  lemma TrimExample()
    ensures Trim(" https://x.test/hook ") == "https://x.test/hook"
  {
    var url := "https://x.test/hook";
    assert " https://x.test/hook " == " " + url + " ";
    TrimRemovesPadding(" ", url, " ");
  }

  /** The configuration half of the example: the marker could only start at
      indices 0 to 2, and none of them holds its first character. */
  lemma ExampleUrlConfigured()
    ensures IsUrlConfigured("https://x.test/hook")
  {
    var url := "https://x.test/hook";
    assert url[0] != 'Y' && url[1] != 'Y' && url[2] != 'Y';
    FirstCharAbsent(url, PlaceholderMarker);
  }

  class App {
    var webhookUrl: string
    /** The browser's persistent key-value storage. */
    var storage: map<string, string>
    var messages: seq<Message>
    var isLoading: bool
    var isSettingsOpen: bool

    ghost predicate Valid()
      reads this`webhookUrl, this`storage
    {
      Persisted(webhookUrl, storage)
    }

    /** The first render: the URL is read once from storage, the conversation
        is empty, nothing is in flight and the settings are closed. */
    constructor (stored: map<string, string>)
      ensures Valid()
      ensures storage == stored && webhookUrl == InitialUrl(stored)
      ensures messages == [] && !isLoading && !isSettingsOpen
    {
      storage := stored;
      webhookUrl := InitialUrl(stored);
      messages := [];
      isLoading := false;
      isSettingsOpen := false;
    }

    /** The mount effect: the conversation becomes the greeting alone. */
    method MountGreeting()
      requires Valid()
      modifies this`messages
      ensures Valid()
      ensures messages == [Greeting]
    {
      messages := [Greeting];
    }

    /** The first half of `handleSendMessage`, up to the request. When the
        URL is not configured it opens the settings and stops; otherwise it
        appends the user's message and marks the application busy. */
    method BeginSend(text: string, now: int) returns (sending: bool)
      requires Valid()
      modifies this`messages, this`isLoading, this`isSettingsOpen
      ensures Valid()
      ensures sending == IsUrlConfigured(webhookUrl)
      ensures !sending ==> isSettingsOpen && messages == old(messages) && isLoading == old(isLoading)
      ensures sending ==> && messages == old(messages) + [Message(Stamped("user-", now), text, User)]
                          && isLoading && isSettingsOpen == old(isSettingsOpen)
    {
      sending := IsUrlConfigured(webhookUrl);
      if sending {
        messages := messages + [Message(Stamped("user-", now), text, User)];
        isLoading := true;
      } else {
        isSettingsOpen := true;
      }
    }

    /** The second half of `handleSendMessage`, once the reply text is
        known: it appends the bot's message and clears the busy flag. */
    method ReceiveReply(replyText: string, now: int)
      requires Valid()
      modifies this`messages, this`isLoading
      ensures Valid()
      ensures messages == old(messages) + [Message(Stamped("bot-", now), replyText, Bot)]
      ensures !isLoading
    {
      messages := messages + [Message(Stamped("bot-", now), replyText, Bot)];
      isLoading := false;
    }

    /** `handleSendMessage` run to completion with nothing in between: a
        configured URL adds the user's message and then the service's reply
        to it; an unconfigured one only opens the settings. */
    method HandleSendMessage(text: string, network: N8nService.Request -> N8nService.Exchange, sentAt: int, repliedAt: int)
      returns (sent: bool)
      requires Valid()
      modifies this`messages, this`isLoading, this`isSettingsOpen
      ensures Valid()
      ensures sent == IsUrlConfigured(webhookUrl)
      ensures sent ==> && messages == old(messages) + [
                            Message(Stamped("user-", sentAt), text, User),
                            Message(Stamped("bot-", repliedAt), N8nService.SendMessageToN8n(text, webhookUrl, network).reply, Bot)]
                       && !isLoading && isSettingsOpen == old(isSettingsOpen)
      ensures !sent ==> isSettingsOpen && messages == old(messages) && isLoading == old(isLoading)
    {
      sent := BeginSend(text, sentAt);
      if sent {
        var reply := N8nService.SendMessageToN8n(text, webhookUrl, network).reply;
        ReceiveReply(reply, repliedAt);
      }
    }

    /** `handleSaveSettings`: the trimmed URL becomes the active URL and is
        written under the one storage key; the settings close and the
        conversation restarts with the saved-settings greeting. */
    method SaveSettings(newUrl: string)
      requires Valid()
      modifies this`webhookUrl, this`storage, this`isSettingsOpen, this`messages
      ensures Valid()
      ensures webhookUrl == Trim(newUrl)
      ensures storage == old(storage)[LocalStorageKey := webhookUrl]
      ensures !isSettingsOpen && messages == [SettingsSaved]
    {
      var trimmedUrl := Trim(newUrl);
      webhookUrl := trimmedUrl;
      storage := storage[LocalStorageKey := trimmedUrl];
      isSettingsOpen := false;
      messages := [SettingsSaved];
    }

    /** The gear button and the banner's button open the settings. */
    method OpenSettings()
      modifies this`isSettingsOpen
      ensures isSettingsOpen
    {
      isSettingsOpen := true;
    }

    /** The settings dialog's close action. */
    method CloseSettings()
      modifies this`isSettingsOpen
      ensures !isSettingsOpen
    {
      isSettingsOpen := false;
    }
  }
}
