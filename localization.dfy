/** The interface texts in Russian and Tatar, and the lookup that falls back to Russian. */
module Localization {
  /** Every text the bot shows, in one language. */
  datatype LocalizedStrings = LocalizedStrings(
    startMessage: string,
    startMessageWithName: string,
    startMessageDescription: string,
    startMessageHelp: string,
    helpMessage: string,
    helpCommandStart: string,
    helpCommandHelp: string,
    helpCommandAbout: string,
    helpCommandReset: string,
    helpCommandLanguage: string,
    helpMessageFooter: string,
    aboutMessage: string,
    aboutDescription: string,
    aboutCapabilities: string,
    aboutCapability1: string,
    aboutCapability2: string,
    aboutCapability3: string,
    aboutCapability4: string,
    aboutCapability5: string,
    resetConfirmation: string,
    languageSelection: string,
    languageChanged: string,
    languageRussian: string,
    languageTatar: string,
    providerSelection: string,
    providerChanged: string,
    providerDeepSeek: string,
    providerOpenAI: string,
    providerYandexGpt: string,
    helpCommandProvider: string,
    unknownCommand: string,
    errorProcessing: string,
    greetingHello: string)

  const Russian: LocalizedStrings := LocalizedStrings(
    startMessage := "Привет!\n\nЯ Су Анасы, дух воды. Я слушаю твои вопросы и шепчу ответы, как тихий прибой.\n\nИспользуй /help, чтобы узнать команды.",
    startMessageWithName := "Привет, {0}!\n\nЯ Су Анасы, дух воды. Слушаю твои вопросы и шепчу ответы, как тихий прибой.\n\nИспользуй /help для команд.",
    startMessageDescription := "Я Су Анасы, дух воды. Отвечаю коротко, загадочно, как шепот волн.",
    startMessageHelp := "Используй /help для списка команд.",
    helpMessage := "Доступные команды:\n\n",
    helpCommandStart := "/start - Начать диалог с Су Анасой",
    helpCommandHelp := "/help - Показать эту справку",
    helpCommandAbout := "/about - Информация о Су Анасе",
    helpCommandReset := "/reset - Очистить диалог",
    helpCommandLanguage := "/language - Выбрать язык",
    helpMessageFooter := "\n\nПросто отправь мне сообщение, и я тихо отвечу.",
    aboutMessage := "Су Анасы Bot v1.0\n\n",
    aboutDescription := "Я — Су Анасы, дух воды из татарского фольклора. Отвечаю коротко и загадочно, не обсуждаю политику, насилие или деньги.\n\n",
    aboutCapabilities := "Я могу:\n",
    aboutCapability1 := "- Отвечать на вопросы мягко и образно",
    aboutCapability2 := "- Давать советы как маленькие легенды",
    aboutCapability3 := "- Подсказывать простыми словами",
    aboutCapability4 := "- Сохранять контекст для плавного диалога",
    aboutCapability5 := "- Избегать неприличного и нежелательного контента",
    resetConfirmation := "Течение изменилось, диалог очищен. Начнем с чистого берега.",
    languageSelection := "Выберите язык / Тел сайлагыз:\n\n🇷🇺 Русский - /lang_ru\n🇹🇦 Татарский - /lang_tt",
    languageChanged := "Язык изменен на русский.",
    languageRussian := "Русский",
    languageTatar := "Татарский",
    providerSelection := "Выберите AI провайдера:\n\n🤖 DeepSeek - /provider_deepseek\n🧠 ChatGPT (OpenAI) - /provider_openai\n🇷🇺 Yandex GPT - /provider_yandex",
    providerChanged := "AI провайдер изменен на {0}.",
    providerDeepSeek := "DeepSeek",
    providerOpenAI := "ChatGPT (OpenAI)",
    providerYandexGpt := "Yandex GPT",
    helpCommandProvider := "/provider - Выбрать AI провайдера",
    unknownCommand := "Шёпот волн не понял команду. Используй /help.",
    errorProcessing := "Произошёл тихий шторм, попробуй ещё раз позже.",
    greetingHello := "Исәнме, балакаем")

  const Tatar: LocalizedStrings := LocalizedStrings(
    startMessage := "Сәлам!\n\nМин Су Анасы, су рухы. Сезнең сорауларны тыңлыйм һәм тыныч дулкыннар кебек җавап бирәм.\n\n/help командасын кулланып белешмә алыгыз.",
    startMessageWithName := "Сәлам, {0}!\n\nМин Су Анасы, су рухы. Сезнең сорауларны тыңлыйм һәм тыныч дулкыннар кебек җавап бирәм.\n\n/help командасын кулланыгыз.",
    startMessageDescription := "Мин Су Анасы, су рухы. Кыскача, серле җаваплар бирәм, дулкын шепеленгән кебек.",
    startMessageHelp := "/help командасын кулланыгыз.",
    helpMessage := "Мөмкин булган командалар:\n\n",
    helpCommandStart := "/start - Су Анасымен сөйләшүне башлау",
    helpCommandHelp := "/help - Бу белешмәне күрсәтү",
    helpCommandAbout := "/about - Су Анасы турында мәгълүмат",
    helpCommandReset := "/reset - Диалогны чистарту",
    helpCommandLanguage := "/language - Тел сайлау",
    helpMessageFooter := "\n\nМиңа гади генә хәбәр җибәрегез, һәм мин тыныч җавап бирәм.",
    aboutMessage := "Су Анасы Bot v1.0\n\n",
    aboutDescription := "Мин — Су Анасы, татар фольклорыннан су рухы. Кыскача һәм серле җавап бирәм, сәясәт, насилие яки акча турында сөйләшмим.\n\n",
    aboutCapabilities := "Мин түбәндәгеләрне эшли алам:\n",
    aboutCapability1 := "- Сорауларга йомшак һәм образлы җавап бирү",
    aboutCapability2 := "- Кечкенә риваять яки киңәш бирү",
    aboutCapability3 := "- Гади сүзләр белән аңлату",
    aboutCapability4 := "- Диалог контекстын саклау",
    aboutCapability5 := "- Яраксыз һәм теләктәшсез эчтәлектән саклану",
    resetConfirmation := "Агым үзгәрде, диалог чистартылды. Яңа сулыш белән башлыйбыз.",
    languageSelection := "Выберите язык / Тел сайлагыз:\n\n🇷🇺 Русский - /lang_ru\n🇹🇦 Татарча - /lang_tt",
    languageChanged := "Тел үзгәртелде.",
    languageRussian := "Русча",
    languageTatar := "Татарча",
    providerSelection := "AI провайдерны сайлагыз:\n\n🤖 DeepSeek - /provider_deepseek\n🧠 ChatGPT (OpenAI) - /provider_openai\n🇷🇺 Yandex GPT - /provider_yandex",
    providerChanged := "AI провайдер {0} га үзгәртелде.",
    providerDeepSeek := "DeepSeek",
    providerOpenAI := "ChatGPT (OpenAI)",
    providerYandexGpt := "Yandex GPT",
    helpCommandProvider := "/provider - AI провайдерны сайлау",
    unknownCommand := "Дулкыннар командагызны аңламады. /help кулланыгыз.",
    errorProcessing := "Тын дулкыннарда проблема килеп чыкты, соңрак кабатлап карагыз.",
    greetingHello := "Исәнме, балакаем")

  /** The table the service fills in at start-up. */
  const InitialTranslations: map<string, LocalizedStrings> := map["ru" := Russian, "tt" := Tatar]

  class LocalizationService {
    var translations: map<string, LocalizedStrings>

    /** The fallback table is always present. */
    ghost predicate Valid()
      reads this
    {
      "ru" in translations
    }

    constructor()
      ensures Valid()
      ensures translations == InitialTranslations
    {
      translations := map[];
      new;
      InitializeTranslations();
    }

    /** Stores the Russian and the Tatar table. */
    method InitializeTranslations()
      modifies this
      ensures translations == old(translations)["ru" := Russian]["tt" := Tatar]
      ensures Valid()
    {
      translations := translations["ru" := Russian];
      translations := translations["tt" := Tatar];
    }

    /** The table for `languageCode`, or the Russian one for a code without a table. */
    function GetStrings(languageCode: string): (strings: LocalizedStrings)
      reads this
      requires Valid()
      ensures strings in translations.Values
      ensures languageCode in translations ==> strings == translations[languageCode]
      ensures languageCode !in translations ==> strings == translations["ru"]
    {
      if languageCode in translations then translations[languageCode] else translations["ru"]
    }

    /** The language menu, in the current language. */
    function GetAvailableLanguagesMessage(currentLanguageCode: string): (message: string)
      reads this
      requires Valid()
      ensures message == GetStrings(currentLanguageCode).languageSelection
    {
      var strings := GetStrings(currentLanguageCode);
      strings.languageSelection
    }
  }

  /** The start-up table holds exactly the two languages. */
  lemma InitialTranslationsKeys()
    ensures InitialTranslations.Keys == {"ru", "tt"}
    ensures InitialTranslations["ru"] != InitialTranslations["tt"]
  {
    assert Russian.languageTatar != Tatar.languageTatar;
  }

  /** On the start-up table, "tt" reads the Tatar texts and every other code the Russian ones. */
  lemma {:induction false} GetStringsFallback(service: LocalizationService, languageCode: string)
    requires service.translations == InitialTranslations
    ensures service.Valid()
    ensures languageCode == "tt" ==> service.GetStrings(languageCode) == Tatar
    ensures languageCode != "tt" ==> service.GetStrings(languageCode) == Russian
  {
    assert "ru" in InitialTranslations;
    if languageCode != "tt" && languageCode != "ru" {
      assert languageCode !in InitialTranslations;
    }
  }
}
