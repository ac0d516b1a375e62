/** The blocked-word filter applied to incoming user messages. */
module ContentFilter {
  import opened Strings

  /** The filter's configuration section. */
  datatype FilterSettings = FilterSettings(enableFiltering: bool, blockedWords: seq<string>, warnOnDetection: bool)

  /** Configuration defaults: filtering and warnings on, no blocked words. */
  const DefaultSettings := FilterSettings(true, [], true)

  /** The reply sent when a message is rejected and warnings are enabled. */
  const WarningText := "Ваше сообщение содержит недопустимый контент. Пожалуйста, перефразируйте."

  /** The filter's verdict: filtering is enabled and some blocked word matches the message. */
  predicate Blocked(settings: FilterSettings, message: string): (blocked: bool)
    ensures !settings.enableFiltering ==> !blocked
    ensures |settings.blockedWords| == 0 ==> !blocked
  {
    settings.enableFiltering
    && exists k | 0 <= k < |settings.blockedWords| :: ContainsIgnoreCase(message, settings.blockedWords[k])
  }

  /** The scan over the blocked words, stopping at the first one that matches. */
  method ContainsBlockedContent(settings: FilterSettings, message: string) returns (blocked: bool)
    ensures blocked == Blocked(settings, message)
    ensures !settings.enableFiltering ==> !blocked
    ensures |settings.blockedWords| == 0 ==> !blocked
  {
    if !settings.enableFiltering {
      return false;
    }
    var lowerMessage := Fold(message);
    var i := 0;
    while i < |settings.blockedWords|
      invariant 0 <= i <= |settings.blockedWords|
      invariant forall k :: 0 <= k < i ==> !ContainsIgnoreCase(message, settings.blockedWords[k])
    {
      if Contains(lowerMessage, Fold(settings.blockedWords[i])) {
        assert ContainsIgnoreCase(message, settings.blockedWords[i]);
        return true;
      }
      i := i + 1;
    }
    return false;
  }

  /** The warning text, or the empty string when warnings are switched off. */
  function GetWarningMessage(settings: FilterSettings): (text: string)
    ensures |text| > 0 <==> settings.warnOnDetection
    ensures settings.warnOnDetection ==> text == WarningText
  {
    if settings.warnOnDetection then WarningText else ""
  }

  /** Changing the letter case of the message does not change the verdict. */
  lemma {:induction false} BlockedIgnoresMessageCase(settings: FilterSettings, message: string, other: string)
    requires Fold(other) == Fold(message)
    ensures Blocked(settings, other) == Blocked(settings, message)
  {
    if Blocked(settings, message) {
      var k :| 0 <= k < |settings.blockedWords| && ContainsIgnoreCase(message, settings.blockedWords[k]);
      assert ContainsIgnoreCase(other, settings.blockedWords[k]);
    }
    if Blocked(settings, other) {
      var k :| 0 <= k < |settings.blockedWords| && ContainsIgnoreCase(other, settings.blockedWords[k]);
      assert ContainsIgnoreCase(message, settings.blockedWords[k]);
    }
  }

  /** In particular, the lower-cased message gets the same verdict as the message itself. */
  lemma {:induction false} BlockedLowerCaseMessage(settings: FilterSettings, message: string)
    ensures Blocked(settings, Fold(message)) == Blocked(settings, message)
  {
    FoldIdempotent(message);
    BlockedIgnoresMessageCase(settings, message, Fold(message));
  }

  /** Lower-casing every blocked word in the configuration does not change any verdict. */
  lemma {:induction false} BlockedLowerCaseWords(settings: FilterSettings, message: string)
    ensures Blocked(settings.(blockedWords := FoldAll(settings.blockedWords)), message)
         == Blocked(settings, message)
  {
    var words := settings.blockedWords;
    forall k | 0 <= k < |words|
      ensures ContainsIgnoreCase(message, FoldAll(words)[k]) == ContainsIgnoreCase(message, words[k])
    {
      FoldIdempotent(words[k]);
    }
  }

  /** Every word lower-cased. */
  function FoldAll(words: seq<string>): (r: seq<string>)
  {
    seq(|words|, k requires 0 <= k < |words| => Fold(words[k]))
  }

  /** Adding blocked words never lets through a message that was blocked. */
  lemma {:induction false} BlockedMonotone(settings: FilterSettings, more: seq<string>, message: string)
    requires Blocked(settings, message)
    ensures Blocked(settings.(blockedWords := settings.blockedWords + more), message)
  {
    var k :| 0 <= k < |settings.blockedWords| && ContainsIgnoreCase(message, settings.blockedWords[k]);
    assert (settings.blockedWords + more)[k] == settings.blockedWords[k];
  }

  /** The empty string occurs in every message, so an empty blocked word blocks everything. */
  lemma {:induction false} EmptyWordBlocksEverything(settings: FilterSettings, message: string)
    requires settings.enableFiltering && "" in settings.blockedWords
    ensures Blocked(settings, message)
  {
    var k :| 0 <= k < |settings.blockedWords| && settings.blockedWords[k] == "";
    assert Fold("") == "";
    ContainsEmpty(Fold(message));
    assert ContainsIgnoreCase(message, settings.blockedWords[k]);
  }

  /** A word match whose letters differ only in case from the configured word. */
  lemma {:induction false} UpperCaseSpamBlocked()
    ensures Blocked(FilterSettings(true, ["спам", "реклама", "бан"], true), "Это СПАМ сообщение")
  {
    var message := "Это СПАМ сообщение";
    assert Fold(message)[4..8] == "спам";
    assert Fold("спам") == "спам";
    assert OccursAt(Fold(message), Fold("спам"), 4);
    assert ContainsIgnoreCase(message, ["спам", "реклама", "бан"][0]);
  }
}
