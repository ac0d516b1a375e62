/** The choice of chat-completion backend from the provider name stored for a user. */
module AiProviders {
  import opened Strings
  import Conversation

  /** The three backends; the model records which one is chosen, not the client object. */
  datatype Provider = DeepSeek | OpenAI | YandexGpt

  /** The factory's dispatch on the lower-cased provider name; anything unrecognised falls
      through to DeepSeek. */
  function CreateService(provider: string): (p: Provider)
    ensures Fold(provider) == "openai" ==> p == OpenAI
    ensures Fold(provider) == "yandexgpt" || Fold(provider) == "yandex" ==> p == YandexGpt
    ensures Fold(provider) != "openai" && Fold(provider) != "yandexgpt" && Fold(provider) != "yandex"
            ==> p == DeepSeek
  {
    var key := Fold(provider);
    if key == "openai" then OpenAI
    else if key == "yandexgpt" || key == "yandex" then YandexGpt
    else DeepSeek
  }

  /** The name the provider commands store for each backend; the factory maps every stored
      name back to the backend it was stored for. */
  function StoredName(p: Provider): (name: string)
    ensures CreateService(name) == p
  {
    match p
    case DeepSeek =>
      assert Fold("DeepSeek") == "deepseek";
      "DeepSeek"
    case OpenAI =>
      assert Fold("OpenAI") == "openai";
      "OpenAI"
    case YandexGpt =>
      assert Fold("YandexGpt") == "yandexgpt";
      "YandexGpt"
  }

  /** Two names that differ only in letter case select the same backend; in particular the
      lower-cased name selects the same backend as the name itself. */
  lemma {:induction false} CreateServiceIgnoresCase(provider: string, other: string)
    requires Fold(other) == Fold(provider)
    ensures CreateService(other) == CreateService(provider)
    ensures CreateService(Fold(provider)) == CreateService(provider)
  {
    FoldIdempotent(provider);
  }

  /** The short alias "yandex" selects YandexGpt, in any letter case. */
  lemma {:induction false} YandexAlias(provider: string)
    requires Fold(provider) == "yandex"
    ensures CreateService(provider) == YandexGpt
  {
  }

  /** A fresh user's stored provider, "YandexGpt", selects the YandexGpt backend. */
  lemma {:induction false} DefaultProviderIsYandexGpt()
    ensures CreateService(Conversation.DefaultAiProvider) == YandexGpt
  {
    assert StoredName(YandexGpt) == Conversation.DefaultAiProvider;
  }

  /** After a provider command stores a backend's name for a user, the next message from that
      user is answered by that backend. */
  lemma {:induction false} ProviderCommandSelects(contexts: map<int, Conversation.ConversationContext>,
                                                  userId: int, p: Provider, now: int, later: int)
    ensures CreateService(Conversation.UserAiProvider(
              Conversation.SetAiProvider(contexts, userId, StoredName(p), now), userId, later)) == p
  {
    Conversation.SetThenGet(contexts, userId, StoredName(p), now, later);
  }
}
