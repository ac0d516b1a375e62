/** The per-user conversation store: one context per Telegram user id, holding the chat
    history, the chosen interface language and the chosen AI provider. Times are instants
    (ticks) handed in by the caller; every operation reads the clock once. */
module Conversation {
  import opened Models

  /** `int`, the type of `MaxHistoryMessages` and of the arithmetic done with it. */
  type Int32 = x: int | -0x8000_0000 <= x < 0x8000_0000

  /** Two's-complement wrap-around of unchecked 32-bit arithmetic. */
  function Wrap32(x: int): (r: Int32)
    ensures (r - x) % 0x1_0000_0000 == 0
    ensures -0x8000_0000 <= x < 0x8000_0000 ==> r == x
  {
    var m := x % 0x1_0000_0000;
    if m < 0x8000_0000 then m else m - 0x1_0000_0000
  }

  /** One chat line. */
  datatype Message = Message(role: string, content: string, timestamp: int)

  /** Everything the bot remembers about one user. */
  datatype ConversationContext = ConversationContext(
    userId: int,
    userName: Option<string>,
    language: string,
    aiProvider: string,
    messages: seq<Message>,
    lastInteraction: int)

  /** The store's configuration section. */
  datatype ConversationSettings = ConversationSettings(maxHistoryMessages: Int32, systemPrompt: string)

  const DefaultLanguage := "ru"
  const DefaultAiProvider := "YandexGpt"
  const DefaultSettings := ConversationSettings(10, "")

  /** The context created for a user seen for the first time at instant `now`. */
  function NewContext(userId: int, userName: Option<string>, now: int): (ctx: ConversationContext)
    ensures ctx.userId == userId && ctx.userName == userName && ctx.messages == []
    ensures ctx.language == DefaultLanguage && ctx.aiProvider == DefaultAiProvider
    ensures ctx.lastInteraction == now
  {
    ConversationContext(userId, userName, DefaultLanguage, DefaultAiProvider, [], now)
  }

  /** The store after `GetOrAdd`: a context is added for an unknown user, a known user's
      context is left as it is. */
  function GetOrAdd(contexts: map<int, ConversationContext>, userId: int, userName: Option<string>, now: int)
    : (r: map<int, ConversationContext>)
    ensures r.Keys == contexts.Keys + {userId}
    ensures forall u :: u in contexts ==> r[u] == contexts[u]
    ensures userId !in contexts ==> r[userId] == NewContext(userId, userName, now)
  {
    if userId in contexts then contexts else contexts[userId := NewContext(userId, userName, now)]
  }

  /** Replacing the user's entry hides whether `GetOrAdd` had to create it. */
  lemma ReplaceAfterGetOrAdd(contexts: map<int, ConversationContext>, userId: int, now: int, ctx: ConversationContext)
    ensures GetOrAdd(contexts, userId, None, now)[userId := ctx] == contexts[userId := ctx]
  {
  }

  /** A second `GetOrAdd` for the same user changes nothing, whatever name it passes. */
  lemma GetOrAddIdempotent(contexts: map<int, ConversationContext>, userId: int,
                           userName: Option<string>, otherName: Option<string>, now: int, later: int)
    ensures GetOrAdd(GetOrAdd(contexts, userId, userName, now), userId, otherName, later)
         == GetOrAdd(contexts, userId, userName, now)
  {
  }

  /** The history trimming done after an append: `None` when `List.RemoveRange` throws. */
  function Trim(maxHistoryMessages: Int32, messages: seq<Message>): (r: Option<seq<Message>>)
    ensures r.Some? ==> |r.value| <= |messages| && r.value == messages[|messages| - |r.value|..]
  {
    var count := |messages|;
    if count > Wrap32(maxHistoryMessages * 2) then
      var toRemove := Wrap32(count - maxHistoryMessages);
      if toRemove < 0 || toRemove > count then None
      else Some(messages[toRemove..])
    else Some(messages)
  }

  /** With a sensible bound the trimming never fails, never leaves more than twice the bound,
      and once the bound is exceeded keeps exactly the newest `maxHistoryMessages` entries. */
  lemma {:induction false} TrimKeepsNewest(maxHistoryMessages: Int32, messages: seq<Message>)
    requires 0 <= maxHistoryMessages < 0x4000_0000
    requires |messages| < 0x8000_0000
    ensures Trim(maxHistoryMessages, messages).Some?
    ensures |Trim(maxHistoryMessages, messages).value| <= 2 * maxHistoryMessages
    ensures |messages| > 2 * maxHistoryMessages
            ==> Trim(maxHistoryMessages, messages).value == messages[|messages| - maxHistoryMessages..]
    ensures |messages| <= 2 * maxHistoryMessages ==> Trim(maxHistoryMessages, messages).value == messages
  {
    assert Wrap32(maxHistoryMessages * 2) == 2 * maxHistoryMessages;
    assert Wrap32(|messages| - maxHistoryMessages) == |messages| - maxHistoryMessages;
  }

  /** A negative bound (down to -2^30) makes `RemoveRange` throw on every append. */
  lemma {:induction false} TrimNegativeThrows(maxHistoryMessages: Int32, messages: seq<Message>)
    requires -0x4000_0000 <= maxHistoryMessages < 0
    requires |messages| < 0x8000_0000
    ensures Trim(maxHistoryMessages, messages).None?
  {
    assert Wrap32(maxHistoryMessages * 2) == 2 * maxHistoryMessages;
    var toRemove := Wrap32(|messages| - maxHistoryMessages);
    if |messages| - maxHistoryMessages < 0x8000_0000 {
      assert toRemove == |messages| - maxHistoryMessages;
    } else {
      assert toRemove == |messages| - maxHistoryMessages - 0x1_0000_0000;
    }
  }

  /** A bound of 2^30 or more overflows when doubled, so the history is trimmed on every
      append, and the trimming throws while the history is shorter than the bound. */
  lemma {:induction false} TrimLargeBoundThrows(maxHistoryMessages: Int32, messages: seq<Message>)
    requires 0x4000_0000 <= maxHistoryMessages
    requires |messages| < maxHistoryMessages
    ensures Trim(maxHistoryMessages, messages).None?
  {
    assert Wrap32(maxHistoryMessages * 2) == 2 * maxHistoryMessages - 0x1_0000_0000;
    assert Wrap32(|messages| - maxHistoryMessages) == |messages| - maxHistoryMessages;
  }

  /** The store after `AddMessage`, and whether it completed (`false`: `RemoveRange` threw,
      after the message had already been appended). */
  function AfterAddMessage(contexts: map<int, ConversationContext>, maxHistoryMessages: Int32,
                           userId: int, role: string, content: string, now: int)
    : (r: (map<int, ConversationContext>, bool))
    ensures userId in r.0
  {
    var ctx := GetOrAdd(contexts, userId, None, now)[userId];
    var appended := ctx.messages + [Message(role, content, now)];
    match Trim(maxHistoryMessages, appended)
    case None => (contexts[userId := ctx.(messages := appended)], false)
    case Some(kept) => (contexts[userId := ctx.(messages := kept, lastInteraction := now)], true)
  }

  /** `AddMessage` adds at most the user's own entry and leaves every other user's context
      untouched, whether or not it completes. */
  lemma AddMessageLeavesOthers(contexts: map<int, ConversationContext>, maxHistoryMessages: Int32,
                               userId: int, role: string, content: string, now: int)
    ensures var r := AfterAddMessage(contexts, maxHistoryMessages, userId, role, content, now).0;
            && r.Keys == contexts.Keys + {userId}
            && forall u :: u in contexts && u != userId ==> r[u] == contexts[u]
  {
  }

  /** With a sensible bound, `AddMessage` completes; the user's new history is a suffix of the
      old history followed by the new message, holds at most twice the bound, ends with the new message unless the bound is zero, and the user's
      `LastInteraction` is `now`. The user's name, language and provider are kept. */
  lemma {:induction false} AddMessageAppends(contexts: map<int, ConversationContext>, maxHistoryMessages: Int32,
                                             userId: int, role: string, content: string, now: int)
    requires 0 <= maxHistoryMessages < 0x4000_0000
    requires userId in contexts ==> |contexts[userId].messages| < 0x7FFF_FFFF
    ensures AfterAddMessage(contexts, maxHistoryMessages, userId, role, content, now).1
    ensures var before := GetOrAdd(contexts, userId, None, now)[userId];
            var after := AfterAddMessage(contexts, maxHistoryMessages, userId, role, content, now).0[userId];
            var appended := before.messages + [Message(role, content, now)];
            && after.messages == appended[|appended| - |after.messages|..]
            && |after.messages| <= 2 * maxHistoryMessages
            && (maxHistoryMessages > 0 ==> after.messages[|after.messages| - 1] == Message(role, content, now))
            && after.lastInteraction == now
            && after.userId == before.userId && after.userName == before.userName
            && after.language == before.language && after.aiProvider == before.aiProvider
  {
    var before := GetOrAdd(contexts, userId, None, now)[userId];
    var appended := before.messages + [Message(role, content, now)];
    TrimKeepsNewest(maxHistoryMessages, appended);
  }

  /** A negative bound makes every `AddMessage` fail after the append: the message stays in
      the history and `LastInteraction` is not updated. */
  lemma {:induction false} AddMessageNegativeBound(contexts: map<int, ConversationContext>, maxHistoryMessages: Int32,
                                                   userId: int, role: string, content: string, now: int)
    requires -0x4000_0000 <= maxHistoryMessages < 0
    requires userId in contexts ==> |contexts[userId].messages| < 0x7FFF_FFFF
    ensures var before := GetOrAdd(contexts, userId, None, now)[userId];
            var r := AfterAddMessage(contexts, maxHistoryMessages, userId, role, content, now);
            && !r.1
            && r.0[userId] == before.(messages := before.messages + [Message(role, content, now)])
  {
    var before := GetOrAdd(contexts, userId, None, now)[userId];
    TrimNegativeThrows(maxHistoryMessages, before.messages + [Message(role, content, now)]);
  }

  /** The store after `CleanupOldContexts`: exactly the contexts last used before `cutoff` are gone. */
  function Cleanup(contexts: map<int, ConversationContext>, cutoff: int): (kept: map<int, ConversationContext>)
    ensures kept.Keys <= contexts.Keys
  {
    map u | u in contexts && contexts[u].lastInteraction >= cutoff :: contexts[u]
  }

  /** Cleanup removes exactly the contexts last used before the cutoff, keeps the others
      unchanged, and a second cleanup at the same cutoff removes nothing more. */
  lemma {:induction false} CleanupIdempotent(contexts: map<int, ConversationContext>, cutoff: int)
    ensures forall u :: u in Cleanup(contexts, cutoff) <==> u in contexts && contexts[u].lastInteraction >= cutoff
    ensures forall u :: u in Cleanup(contexts, cutoff) ==> Cleanup(contexts, cutoff)[u] == contexts[u]
    ensures Cleanup(Cleanup(contexts, cutoff), cutoff) == Cleanup(contexts, cutoff)
  {
    var once := Cleanup(contexts, cutoff);
    assert forall u :: u in once ==> once[u].lastInteraction >= cutoff;
  }

  /** A negative age puts the cutoff after every interaction up to `now`, so everything goes. */
  lemma {:induction false} CleanupNegativeAgeClearsAll(contexts: map<int, ConversationContext>, maxAge: int, now: int)
    requires maxAge < 0
    requires forall u :: u in contexts ==> contexts[u].lastInteraction <= now
    ensures Cleanup(contexts, now - maxAge) == map[]
  {
    forall u | u in contexts
      ensures contexts[u].lastInteraction < now - maxAge
    {
    }
  }

  /** The store after `SetUserLanguage`. */
  function SetLanguage(contexts: map<int, ConversationContext>, userId: int, languageCode: string, now: int)
    : (r: map<int, ConversationContext>)
    ensures r.Keys == contexts.Keys + {userId}
    ensures forall u :: u in contexts && u != userId ==> r[u] == contexts[u]
  {
    var ctx := GetOrAdd(contexts, userId, None, now)[userId];
    GetOrAdd(contexts, userId, None, now)[userId := ctx.(language := languageCode)]
  }

  /** The store after `SetUserAiProvider`. */
  function SetAiProvider(contexts: map<int, ConversationContext>, userId: int, provider: string, now: int)
    : (r: map<int, ConversationContext>)
    ensures r.Keys == contexts.Keys + {userId}
    ensures forall u :: u in contexts && u != userId ==> r[u] == contexts[u]
  {
    var ctx := GetOrAdd(contexts, userId, None, now)[userId];
    GetOrAdd(contexts, userId, None, now)[userId := ctx.(aiProvider := provider)]
  }

  /** The language a user reads back: the stored one, or the default for an unknown user. */
  function UserLanguage(contexts: map<int, ConversationContext>, userId: int, now: int): (code: string)
    ensures userId in contexts ==> code == contexts[userId].language
    ensures userId !in contexts ==> code == DefaultLanguage
  {
    GetOrAdd(contexts, userId, None, now)[userId].language
  }

  /** The provider a user reads back: the stored one, or the default for an unknown user. */
  function UserAiProvider(contexts: map<int, ConversationContext>, userId: int, now: int): (provider: string)
    ensures userId in contexts ==> provider == contexts[userId].aiProvider
    ensures userId !in contexts ==> provider == DefaultAiProvider
  {
    GetOrAdd(contexts, userId, None, now)[userId].aiProvider
  }

  /** Setting then reading gives back the value set, for the language and for the provider;
      setting one leaves the other as it was. */
  lemma {:induction false} SetThenGet(contexts: map<int, ConversationContext>, userId: int, value: string, now: int, later: int)
    ensures UserLanguage(SetLanguage(contexts, userId, value, now), userId, later) == value
    ensures UserAiProvider(SetLanguage(contexts, userId, value, now), userId, later)
         == UserAiProvider(contexts, userId, now)
    ensures UserAiProvider(SetAiProvider(contexts, userId, value, now), userId, later) == value
    ensures UserLanguage(SetAiProvider(contexts, userId, value, now), userId, later)
         == UserLanguage(contexts, userId, now)
  {
    var ctx := GetOrAdd(contexts, userId, None, now)[userId];
    assert SetLanguage(contexts, userId, value, now)[userId] == ctx.(language := value);
    assert SetAiProvider(contexts, userId, value, now)[userId] == ctx.(aiProvider := value);
  }

  /** A user without a context reads the defaults, "ru" and "YandexGpt". */
  lemma FreshUserDefaults(contexts: map<int, ConversationContext>, userId: int, now: int)
    requires userId !in contexts
    ensures UserLanguage(contexts, userId, now) == DefaultLanguage
    ensures UserAiProvider(contexts, userId, now) == DefaultAiProvider
  {
  }

  /** After a reset the next `GetOrAdd` starts the user over with an empty history and the
      defaults, and leaves everybody else's context as it was. */
  lemma ResetStartsOver(contexts: map<int, ConversationContext>, userId: int, userName: Option<string>, now: int)
    ensures var r := GetOrAdd(contexts - {userId}, userId, userName, now);
            && r[userId] == NewContext(userId, userName, now)
            && forall u :: u in contexts && u != userId ==> r[u] == contexts[u]
  {
  }

  /** The service object: the context map it owns and its configuration. */
  class ConversationService {
    var contexts: map<int, ConversationContext>
    const settings: ConversationSettings

    constructor(settings: ConversationSettings)
      ensures contexts == map[] && this.settings == settings
    {
      contexts := map[];
      this.settings := settings;
    }

    /** The user's context, created with the given name if the user is new. */
    method GetOrCreateContext(userId: int, userName: Option<string>, now: int) returns (context: ConversationContext)
      modifies this
      ensures contexts == GetOrAdd(old(contexts), userId, userName, now)
      ensures context == contexts[userId]
      ensures userId in old(contexts) ==> context == old(contexts)[userId]
      ensures userId !in old(contexts) ==> context.userId == userId && context.userName == userName
                                           && context.messages == []
    {
      if userId !in contexts {
        contexts := contexts[userId := NewContext(userId, userName, now)];
      }
      context := contexts[userId];
    }

    /** Appends a message to the user's history, trims the history and records the
        interaction time; `ok` is `false` where `RemoveRange` throws. */
    method AddMessage(userId: int, role: string, content: string, now: int) returns (ok: bool)
      modifies this
      ensures (contexts, ok) == AfterAddMessage(old(contexts), settings.maxHistoryMessages, userId, role, content, now)
    {
      var context := GetOrCreateContext(userId, None, now);
      var messages := context.messages + [Message(role, content, now)];
      ghost var appended := messages;
      var count := |messages|;
      if count > Wrap32(settings.maxHistoryMessages * 2) {
        var toRemove := Wrap32(count - settings.maxHistoryMessages);
        if toRemove < 0 || toRemove > count {
          // `RemoveRange` throws after the message has been added.
          assert Trim(settings.maxHistoryMessages, appended).None?;
          ReplaceAfterGetOrAdd(old(contexts), userId, now, context.(messages := messages));
          contexts := contexts[userId := context.(messages := messages)];
          return false;
        }
        messages := messages[toRemove..];
      }
      assert Trim(settings.maxHistoryMessages, appended) == Some(messages);
      ReplaceAfterGetOrAdd(old(contexts), userId, now, context.(messages := messages, lastInteraction := now));
      contexts := contexts[userId := context.(messages := messages, lastInteraction := now)];
      return true;
    }

    /** Forgets the user; nothing happens for an unknown user. */
    method ResetContext(userId: int)
      modifies this
      ensures contexts == old(contexts) - {userId}
      ensures userId !in old(contexts) ==> contexts == old(contexts)
    {
      if userId in contexts {
        contexts := contexts - {userId};
      }
    }

    /** Drops every context whose last interaction is older than `maxAge` before `now`. */
    method CleanupOldContexts(maxAge: int, now: int)
      modifies this
      ensures contexts == Cleanup(old(contexts), now - maxAge)
    {
      var cutoffTime := now - maxAge;
      var toRemove := set u | u in contexts && contexts[u].lastInteraction < cutoffTime;
      var remaining := toRemove;
      while exists u :: u in remaining
        invariant remaining <= toRemove
        invariant contexts.Keys == old(contexts).Keys - (toRemove - remaining)
        invariant forall u :: u in contexts ==> contexts[u] == old(contexts)[u]
        decreases remaining
      {
        var userId :| userId in remaining;
        contexts := contexts - {userId};
        remaining := remaining - {userId};
      }
      ghost var kept := Cleanup(old(contexts), cutoffTime);
      assert forall u :: u in contexts <==> u in kept;
      assert forall u :: u in contexts ==> contexts[u] == kept[u];
    }

    method SetUserLanguage(userId: int, languageCode: string, now: int)
      modifies this
      ensures contexts == SetLanguage(old(contexts), userId, languageCode, now)
    {
      var context := GetOrCreateContext(userId, None, now);
      contexts := contexts[userId := context.(language := languageCode)];
    }

    /** Reads the user's language; like every lookup here it creates the context if absent. */
    method GetUserLanguage(userId: int, now: int) returns (languageCode: string)
      modifies this
      ensures languageCode == UserLanguage(old(contexts), userId, now)
      ensures contexts == GetOrAdd(old(contexts), userId, None, now)
    {
      var context := GetOrCreateContext(userId, None, now);
      languageCode := context.language;
    }

    method SetUserAiProvider(userId: int, provider: string, now: int)
      modifies this
      ensures contexts == SetAiProvider(old(contexts), userId, provider, now)
    {
      var context := GetOrCreateContext(userId, None, now);
      contexts := contexts[userId := context.(aiProvider := provider)];
    }

    /** Reads the user's provider name, creating the context if absent. */
    method GetUserAiProvider(userId: int, now: int) returns (provider: string)
      modifies this
      ensures provider == UserAiProvider(old(contexts), userId, now)
      ensures contexts == GetOrAdd(old(contexts), userId, None, now)
    {
      var context := GetOrCreateContext(userId, None, now);
      provider := context.aiProvider;
    }
  }
}
