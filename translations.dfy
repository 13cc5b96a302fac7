/**
 * The translation lookup (src/i18n/translations.js): `t(key)` splits a dotted
 * key, walks the current language's nested table and falls back to the key
 * itself on any miss; the language is one mutable setting.
 */
module Translations {
  import opened Wrappers

  /** A node of the translation table: a display string or a nested table. */
  datatype Entry = Text(text: string) | Table(fields: map<string, Entry>)

  /** JavaScript truthiness of a table value: objects always, strings unless empty. */
  predicate Truthy(e: Entry) {
    e.Table? || e.text != ""
  }

  /** `key.split('.')` */
  function Split(s: string): (parts: seq<string>)
    ensures |parts| >= 1
    ensures forall i :: 0 <= i < |parts| ==> '.' !in parts[i]
  {
    if s == [] then [""]
    else
      var rest := Split(s[1..]);
      if s[0] == '.' then [""] + rest
      else
        assert forall i :: 1 <= i < |rest| ==> ([[s[0]] + rest[0]] + rest[1..])[i] == rest[i];
        [[s[0]] + rest[0]] + rest[1..]
  }

  /** `parts.join('.')`, the inverse of `Split`. */
  function Join(parts: seq<string>): string
    requires |parts| >= 1
  {
    if |parts| == 1 then parts[0] else parts[0] + "." + Join(parts[1..])
  }

  /** Splitting and joining again gives back the key. */
  lemma {:induction false} JoinSplit(s: string)
    ensures Join(Split(s)) == s
  {
    if s != [] {
      JoinSplit(s[1..]);
      var rest := Split(s[1..]);
      if s[0] == '.' {
        assert Split(s) == [""] + rest;
        assert ([""] + rest)[1..] == rest;
      } else {
        var parts := [[s[0]] + rest[0]] + rest[1..];
        if |rest| > 1 {
          assert parts[1..] == rest[1..];
          assert Join(rest) == rest[0] + "." + Join(rest[1..]);
        }
      }
    }
  }

  /** A segment without a dot is glued to the first part of what follows it. */
  lemma {:induction false} SplitPrefix(a: string, t: string)
    requires '.' !in a
    ensures Split(a + t) == [a + Split(t)[0]] + Split(t)[1..]
  {
    if a != [] {
      SplitPrefix(a[1..], t);
      assert (a + t)[1..] == a[1..] + t;
      assert [a[0]] + (a[1..] + Split(t)[0]) == a + Split(t)[0];
    } else {
      assert a + t == t;
      assert a + Split(t)[0] == Split(t)[0];
      assert Split(t) == [Split(t)[0]] + Split(t)[1..];
    }
  }

  /** Joining dot-free segments and splitting again gives back the segments. */
  lemma {:induction false} SplitJoin(parts: seq<string>)
    requires |parts| >= 1
    requires forall i :: 0 <= i < |parts| ==> '.' !in parts[i]
    ensures Split(Join(parts)) == parts
  {
    if |parts| == 1 {
      SplitPrefix(parts[0], "");
      assert parts[0] + "" == parts[0];
    } else {
      var tail := Join(parts[1..]);
      SplitJoin(parts[1..]);
      SplitPrefix(parts[0], "." + tail);
      assert ("." + tail)[1..] == tail;
      assert parts[0] + ("." + tail) == Join(parts);
      assert parts[0] + "" == parts[0];
    }
  }

  /** The `for` loop of `t`: each segment must name a truthy value of the current table. */
  function Walk(e: Entry, keys: seq<string>): (r: Option<Entry>)
    ensures keys == [] ==> r == Some(e)
    ensures keys != [] && r.Some? ==> Truthy(r.value)
  {
    if keys == [] then Some(e)
    else
      match e
      case Text(_) => None
      case Table(m) =>
        if keys[0] in m && Truthy(m[keys[0]]) then Walk(m[keys[0]], keys[1..]) else None
  }

  /** Walking a path in two legs is walking it at once. */
  lemma {:induction false} WalkAppend(e: Entry, first: seq<string>, second: seq<string>)
    ensures Walk(e, first + second) == match Walk(e, first) case Some(u) => Walk(u, second) case None => None
  {
    if first != [] {
      assert (first + second)[1..] == first[1..] + second;
      match e
      case Text(_) =>
      case Table(m) =>
        if first[0] in m && Truthy(m[first[0]]) {
          WalkAppend(m[first[0]], first[1..], second);
        }
    } else {
      assert first + second == second;
    }
  }

  /**
   * `t(key)` in language `lang`: the value at the end of the dotted path, or
   * the key itself when the language has no table or any segment misses.
   */
  function Translate(table: map<string, Entry>, lang: string, key: string): (r: Entry)
    ensures lang !in table ==> r == Text(key)
    ensures lang in table && Walk(table[lang], Split(key)).None? ==> r == Text(key)
    ensures lang in table && Walk(table[lang], Split(key)).Some? ==> r == Walk(table[lang], Split(key)).value
  {
    if lang in table then
      match Walk(table[lang], Split(key))
      case Some(v) => v
      case None => Text(key)
    else Text(key)
  }

  /** `t` never yields a falsy value for a non-empty key. */
  lemma TranslateTruthy(table: map<string, Entry>, lang: string, key: string)
    requires key != ""
    ensures Truthy(Translate(table, lang, key))
  {
  }

  /** A two-segment key whose leaf is a non-empty string resolves to that string. */
  lemma TranslateTwoLevel(table: map<string, Entry>, lang: string, section: string, name: string, text: string)
    requires '.' !in section && '.' !in name && text != ""
    requires lang in table && table[lang].Table? && section in table[lang].fields
    requires table[lang].fields[section].Table? && name in table[lang].fields[section].fields
    requires table[lang].fields[section].fields[name] == Text(text)
    ensures Translate(table, lang, section + "." + name) == Text(text)
  {
    var keys := [section, name];
    SplitJoin(keys);
    assert Join(keys) == section + "." + name;
    assert keys[1..] == [name] && [name][1..] == [];
    var sub := table[lang].fields[section];
    assert Walk(sub, [name]) == Some(Text(text));
    assert Walk(table[lang], keys) == Walk(sub, [name]);
  }

  /** `t(key) || fallback` */
  function OrElse(e: Entry, fallback: string): Entry {
    if Truthy(e) then e else Text(fallback)
  }

  /** `getCategoryName(id)`: its `|| id` fallback is never taken. */
  function CategoryName(table: map<string, Entry>, lang: string, id: string): (r: Entry)
    ensures r == Translate(table, lang, "categories." + id)
  {
    TranslateTruthy(table, lang, "categories." + id);
    OrElse(Translate(table, lang, "categories." + id), id)
  }

  /** `getMoodName(id)`: its `|| id` fallback is never taken. */
  function MoodName(table: map<string, Entry>, lang: string, id: string): (r: Entry)
    ensures r == Translate(table, lang, "moods." + id)
  {
    TranslateTruthy(table, lang, "moods." + id);
    OrElse(Translate(table, lang, "moods." + id), id)
  }

  /** `getFlavorName(id)`: its `|| id` fallback is never taken. */
  function FlavorName(table: map<string, Entry>, lang: string, id: string): (r: Entry)
    ensures r == Translate(table, lang, "flavors." + id)
  {
    TranslateTruthy(table, lang, "flavors." + id);
    OrElse(Translate(table, lang, "flavors." + id), id)
  }

  /** The application's table, by language. */
  const Translations: map<string, Entry> := map["tr" := Turkish, "en" := English]

  /** The Turkish table (`translations.tr`), one constant per section. */
  const Turkish: Entry := Table(map[
    "app" := TurkishApp,
    "welcome" := TurkishWelcome,
    "steps" := TurkishSteps,
    "screens" := TurkishScreens,
    "buttons" := TurkishButtons,
    "categories" := TurkishCategories,
    "moods" := TurkishMoods,
    "moodDescriptions" := TurkishMoodDescriptions,
    "flavors" := TurkishFlavors,
    "flavorDescriptions" := TurkishFlavorDescriptions,
    "extraQuestions" := TurkishExtraQuestions,
    "matchExplanation" := TurkishMatchExplanation,
    "confidence" := TurkishConfidence
  ])

  const TurkishApp: Entry := Table(map[
    "name" := Text("SAKİ APP"),
    "tagline" := Text("Mükemmel içkini bul")
  ])

  const TurkishWelcome: Entry := Table(map[
    "title" := Text("SAKİ"),
    "subtitle" := Text("Damak tadına göre kişiselleştirilmiş öneriler"),
    "button" := Text("Bugün Ne İçelim?"),
    "howItWorks" := Text("Nasıl Çalışır?"),
    "howItWorksText" := Text("3 basit soruya cevap ver, sana en uygun içkiyi bulalım. Ne kadar çok soru cevaplanırsa, öneri o kadar isabetli olur.")
  ])

  const TurkishSteps: Entry := Table(map[
    "step1" := Text("Adım 1/3"),
    "step2" := Text("Adım 2/3"),
    "step3" := Text("Adım 3/3"),
    "extra" := Text("Ek Soru")
  ])

  const TurkishScreens: Entry := Table(map[
    "type" := Table(map[
      "title" := Text("Ne İçmek İstersin?"),
      "subtitle" := Text("Ruhuna uygun olanı seç")
    ]),
    "mood" := Table(map[
      "title" := Text("Nasıl Bir Ortam?"),
      "subtitle" := Text("Anının ruhunu yakala")
    ]),
    "taste" := Table(map[
      "title" := Text("Damak Zevkin?"),
      "subtitle" := Text("Karakterini yansıtan tarzı seç")
    ]),
    "extra" := Table(map[
      "title" := Text("Biraz Daha Bilgi"),
      "subtitle" := Text("Daha iyi öneri için yardımcı olur")
    ]),
    "result" := Table(map[
      "title" := Text("Senin İçin Öneri"),
      "match" := Text("Eşleşme"),
      "whyThis" := Text("Neden bu öneri?"),
      "alternatives" := Text("Alternatifler"),
      "moreOptions" := Text("Daha Fazla Öneri"),
      "restart" := Text("Yeniden Başla"),
      "tapForDetails" := Text("Detay için dokun")
    ])
  ])

  const TurkishButtons: Entry := Table(map[
    "unsure" := Text("Emin Değilim"),
    "skip" := Text("Atla"),
    "back" := Text("Geri"),
    "next" := Text("Devam")
  ])

  const TurkishCategories: Entry := Table(map[
    "raki" := Text("Rakı"),
    "whiskey" := Text("Viski"),
    "beer" := Text("Bira"),
    "vodka" := Text("Votka"),
    "gin" := Text("Cin"),
    "tequila" := Text("Tekila"),
    "wine" := Text("Şarap"),
    "other" := Text("Diğer")
  ])

  const TurkishMoods: Entry := Table(map[
    "solo" := Text("Tek Başına"),
    "friends" := Text("Arkadaşlarla"),
    "romantic" := Text("Romantik"),
    "celebration" := Text("Kutlama"),
    "business" := Text("İş Yemeği")
  ])

  const TurkishMoodDescriptions: Entry := Table(map[
    "solo" := Text("Sakin bir akşam, kendi halinde"),
    "friends" := Text("Eğlenceli bir buluşma"),
    "romantic" := Text("Özel biri ile baş başa"),
    "celebration" := Text("Özel bir anı taçlandırmak için"),
    "business" := Text("Profesyonel ve sofistike")
  ])

  const TurkishFlavors: Entry := Table(map[
    "light" := Text("Hafif & Ferah"),
    "balanced" := Text("Dengeli"),
    "bold" := Text("Güçlü & Karakterli")
  ])

  const TurkishFlavorDescriptions: Entry := Table(map[
    "light" := Text("Taze, canlı, rahatlatıcı"),
    "balanced" := Text("Uyumlu, zarif, çok yönlü"),
    "bold" := Text("Yoğun, kompleks, akılda kalıcı")
  ])

  const TurkishExtraQuestions: Entry := Table(map[
    "experience" := Table(map[
      "question" := Text("Bu kategoride deneyimin?"),
      "beginner" := Text("Yeni başlıyorum"),
      "casual" := Text("Ara sıra içerim"),
      "enthusiast" := Text("Meraklıyım")
    ]),
    "strength" := Table(map[
      "question" := Text("Alkol gücü tercihin?"),
      "light" := Text("Hafif"),
      "medium" := Text("Orta"),
      "strong" := Text("Güçlü")
    ])
  ])

  const TurkishMatchExplanation: Entry := Table(map[
    "category" := Text("Seçtiğin kategori"),
    "mood" := Text("Ortam uyumu"),
    "flavor" := Text("Tat profili uyumu"),
    "perfect" := Text("Mükemmel eşleşme!"),
    "good" := Text("İyi bir seçim"),
    "tryIt" := Text("Denemeni öneririz")
  ])

  const TurkishConfidence: Entry := Table(map[
    "high" := Text("Mükemmel Eşleşme"),
    "good" := Text("Güçlü Eşleşme"),
    "moderate" := Text("İyi Eşleşme"),
    "uncertain" := Text("Belirsiz"),
    "low" := Text("Keşif Modu")
  ])

  /** The English table (`translations.en`), one constant per section. */
  const English: Entry := Table(map[
    "app" := EnglishApp,
    "welcome" := EnglishWelcome,
    "steps" := EnglishSteps,
    "screens" := EnglishScreens,
    "buttons" := EnglishButtons,
    "categories" := EnglishCategories,
    "moods" := EnglishMoods,
    "moodDescriptions" := EnglishMoodDescriptions,
    "flavors" := EnglishFlavors,
    "flavorDescriptions" := EnglishFlavorDescriptions,
    "extraQuestions" := EnglishExtraQuestions,
    "matchExplanation" := EnglishMatchExplanation,
    "confidence" := EnglishConfidence
  ])

  const EnglishApp: Entry := Table(map[
    "name" := Text("SAKİ APP"),
    "tagline" := Text("Find your perfect drink")
  ])

  const EnglishWelcome: Entry := Table(map[
    "title" := Text("SAKİ"),
    "subtitle" := Text("Personalized recommendations based on your taste"),
    "button" := Text("What's Your Drink Today?"),
    "howItWorks" := Text("How It Works"),
    "howItWorksText" := Text("Answer 3 simple questions, and we'll find the perfect drink for you. The more questions you answer, the better our recommendation.")
  ])

  const EnglishSteps: Entry := Table(map[
    "step1" := Text("Step 1/3"),
    "step2" := Text("Step 2/3"),
    "step3" := Text("Step 3/3"),
    "extra" := Text("Extra Question")
  ])

  const EnglishScreens: Entry := Table(map[
    "type" := Table(map[
      "title" := Text("What Would You Like?"),
      "subtitle" := Text("Choose what speaks to your soul")
    ]),
    "mood" := Table(map[
      "title" := Text("What's The Occasion?"),
      "subtitle" := Text("Set the mood")
    ]),
    "taste" := Table(map[
      "title" := Text("Your Taste Profile?"),
      "subtitle" := Text("Choose your style")
    ]),
    "extra" := Table(map[
      "title" := Text("A Bit More Info"),
      "subtitle" := Text("Helps us recommend better")
    ]),
    "result" := Table(map[
      "title" := Text("Our Pick For You"),
      "match" := Text("Match"),
      "whyThis" := Text("Why this recommendation?"),
      "alternatives" := Text("Alternatives"),
      "moreOptions" := Text("More Options"),
      "restart" := Text("Start Over"),
      "tapForDetails" := Text("Tap for details")
    ])
  ])

  const EnglishButtons: Entry := Table(map[
    "unsure" := Text("Not Sure"),
    "skip" := Text("Skip"),
    "back" := Text("Back"),
    "next" := Text("Continue")
  ])

  const EnglishCategories: Entry := Table(map[
    "raki" := Text("Rakı"),
    "whiskey" := Text("Whiskey"),
    "beer" := Text("Beer"),
    "vodka" := Text("Vodka"),
    "gin" := Text("Gin"),
    "tequila" := Text("Tequila"),
    "wine" := Text("Wine"),
    "other" := Text("Other")
  ])

  const EnglishMoods: Entry := Table(map[
    "solo" := Text("Solo"),
    "friends" := Text("With Friends"),
    "romantic" := Text("Romantic"),
    "celebration" := Text("Celebration"),
    "business" := Text("Business Dinner")
  ])

  const EnglishMoodDescriptions: Entry := Table(map[
    "solo" := Text("A quiet evening, just yourself"),
    "friends" := Text("Fun gathering with friends"),
    "romantic" := Text("Special time with someone"),
    "celebration" := Text("Marking a special occasion"),
    "business" := Text("Professional and sophisticated")
  ])

  const EnglishFlavors: Entry := Table(map[
    "light" := Text("Light & Fresh"),
    "balanced" := Text("Balanced"),
    "bold" := Text("Bold & Complex")
  ])

  const EnglishFlavorDescriptions: Entry := Table(map[
    "light" := Text("Fresh, vibrant, refreshing"),
    "balanced" := Text("Harmonious, elegant, versatile"),
    "bold" := Text("Intense, complex, memorable")
  ])

  const EnglishExtraQuestions: Entry := Table(map[
    "experience" := Table(map[
      "question" := Text("Your experience with this category?"),
      "beginner" := Text("Just starting out"),
      "casual" := Text("Occasional drinker"),
      "enthusiast" := Text("Enthusiast")
    ]),
    "strength" := Table(map[
      "question" := Text("Alcohol strength preference?"),
      "light" := Text("Light"),
      "medium" := Text("Medium"),
      "strong" := Text("Strong")
    ])
  ])

  const EnglishMatchExplanation: Entry := Table(map[
    "category" := Text("Your category choice"),
    "mood" := Text("Occasion match"),
    "flavor" := Text("Flavor profile match"),
    "perfect" := Text("Perfect match!"),
    "good" := Text("Great choice"),
    "tryIt" := Text("We recommend trying this")
  ])

  const EnglishConfidence: Entry := Table(map[
    "high" := Text("Perfect Match"),
    "good" := Text("Strong Match"),
    "moderate" := Text("Good Match"),
    "uncertain" := Text("Uncertain"),
    "low" := Text("Discovery Mode")
  ])

  /** The current language, kept across `t` calls; it starts from the stored preference. */
  class Translator {
    var language: string

    /** `localStorage.getItem('saki-language') || 'tr'`, the stored value given as a parameter. */
    constructor(stored: Option<string>)
      ensures language == if stored.Some? && stored.value != "" then stored.value else "tr"
    {
      language := if stored.Some? && stored.value != "" then stored.value else "tr";
    }

    /** `getLanguage()` */
    method GetLanguage() returns (lang: string)
      ensures lang == language
    {
      lang := language;
    }

    /** `setLanguage(lang)`, without the stored preference and the listeners. */
    method SetLanguage(lang: string)
      modifies this
      ensures language == lang
    {
      language := lang;
    }

    /** `t(key)`: reads the language and the table, changes nothing. */
    function T(key: string): (r: Entry)
      reads this
      ensures key != "" ==> Truthy(r)
      ensures language !in Translations ==> r == Text(key)
    {
      Translate(Translations, language, key)
    }
  }

  /** A category present in a language's table is named by its text there. */
  lemma CategoryNamed(table: map<string, Entry>, lang: string, id: string, text: string)
    requires '.' !in id && text != ""
    requires lang in table && table[lang].Table? && "categories" in table[lang].fields
    requires table[lang].fields["categories"].Table? && id in table[lang].fields["categories"].fields
    requires table[lang].fields["categories"].fields[id] == Text(text)
    ensures CategoryName(table, lang, id) == Text(text)
  {
    TranslateTwoLevel(table, lang, "categories", id, text);
    assert "categories" + "." == "categories.";
  }

  /** Where the Turkish name of wine sits in the table. */
  lemma TurkishWine()
    ensures "tr" in Translations && Translations["tr"] == Turkish
    ensures Turkish.Table? && "categories" in Turkish.fields && Turkish.fields["categories"] == TurkishCategories
    ensures TurkishCategories.Table? && "wine" in TurkishCategories.fields
    ensures TurkishCategories.fields["wine"] == Text("Şarap")
  {
    TurkishLanguage();
    TurkishCategoriesSection();
    TurkishName();
  }

  lemma TurkishLanguage()
    ensures "tr" in Translations && Translations["tr"] == Turkish
  {
  }

  lemma TurkishCategoriesSection()
    ensures Turkish.Table? && "categories" in Turkish.fields && Turkish.fields["categories"] == TurkishCategories
  {
  }

  lemma TurkishName()
    ensures TurkishCategories.Table? && "wine" in TurkishCategories.fields
    ensures TurkishCategories.fields["wine"] == Text("Şarap")
  {
  }

  /** `getCategoryName("wine")` reads "Şarap" in Turkish. */
  lemma WineInTurkish()
    ensures CategoryName(Translations, "tr", "wine") == Text("Şarap")
  {
    TurkishWine();
    CategoryNamed(Translations, "tr", "wine", "Şarap");
  }

  /** Where the English name of wine sits in the table. */
  lemma EnglishWine()
    ensures "en" in Translations && Translations["en"] == English
    ensures English.Table? && "categories" in English.fields && English.fields["categories"] == EnglishCategories
    ensures EnglishCategories.Table? && "wine" in EnglishCategories.fields
    ensures EnglishCategories.fields["wine"] == Text("Wine")
  {
    EnglishLanguage();
    EnglishCategoriesSection();
    EnglishName();
  }

  lemma EnglishLanguage()
    ensures "en" in Translations && Translations["en"] == English
  {
  }

  lemma EnglishCategoriesSection()
    ensures English.Table? && "categories" in English.fields && English.fields["categories"] == EnglishCategories
  {
  }

  lemma EnglishName()
    ensures EnglishCategories.Table? && "wine" in EnglishCategories.fields
    ensures EnglishCategories.fields["wine"] == Text("Wine")
  {
  }

  /** `getCategoryName("wine")` reads "Wine" in English. */
  lemma WineInEnglish()
    ensures CategoryName(Translations, "en", "wine") == Text("Wine")
  {
    EnglishWine();
    CategoryNamed(Translations, "en", "wine", "Wine");
  }

  /** An unknown language translates nothing. */
  lemma UnknownLanguageEchoesKey(lang: string, key: string)
    requires lang !in Translations
    ensures Translate(Translations, lang, key) == Text(key)
  {
  }

  /** After `setLanguage(lang)`, `getLanguage()` gives `lang` and `t` looks up that language. */
  method SwitchLanguage(tr: Translator, lang: string) returns (current: string)
    modifies tr
    ensures current == lang
    ensures forall key :: tr.T(key) == Translate(Translations, lang, key)
  {
    tr.SetLanguage(lang);
    current := tr.GetLanguage();
  }
}
