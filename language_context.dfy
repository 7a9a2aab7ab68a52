/**
 * The English/Amharic language context (src/contexts/LanguageContext.tsx):
 * the current language, its toggle, the `t` lookup with key fallback, and the
 * title/description fallback the cards and detail pages apply.
 */
module Language {

  import opened Common

  datatype Lang = En | Am

  /** The "Navigation" entries. */
  function NavigationStrings(lang: Lang): (m: map<string, string>)
    ensures m.Keys == {"nav.home", "nav.products", "nav.government", "nav.submit", "nav.login", "nav.logout", "nav.profile"}
    ensures NoEmptyEntries(m)
  {
    match lang
    case En =>
      map[
        "nav.home" := "Home",
        "nav.products" := "Products",
        "nav.government" := "Government",
        "nav.submit" := "Submit",
        "nav.login" := "Login",
        "nav.logout" := "Logout",
        "nav.profile" := "Profile"
      ]
    case Am =>
      map[
        "nav.home" := "መነሻ",
        "nav.products" := "ምርቶች",
        "nav.government" := "መንግስት",
        "nav.submit" := "አስገባ",
        "nav.login" := "ግባ",
        "nav.logout" := "ውጣ",
        "nav.profile" := "መገለጫ"
      ]
  }

  /** The "Home page" entries. */
  function HomePageStrings(lang: Lang): (m: map<string, string>)
    ensures m.Keys == {"home.hero.title", "home.hero.subtitle", "home.featured", "home.trending"}
    ensures NoEmptyEntries(m)
  {
    match lang
    case En =>
      map[
        "home.hero.title" := "Discover Amazing Ethiopian Products",
        "home.hero.subtitle" := "The platform where Ethiopian developers and startups showcase their innovations",
        "home.featured" := "Featured Products",
        "home.trending" := "Trending Today"
      ]
    case Am =>
      map[
        "home.hero.title" := "አስደናቂ የኢትዮጵያ ምርቶችን ያግኙ",
        "home.hero.subtitle" := "የኢትዮጵያ ደቨሎፐሮች እና ስታርት አፖች ፈጠራቸውን የሚያሳዩበት መድረክ",
        "home.featured" := "ተለዩ ምርቶች",
        "home.trending" := "ዛሬ ትሬንድ"
      ]
  }

  /** The "Product" entries. */
  function ProductStrings(lang: Lang): (m: map<string, string>)
    ensures m.Keys == {"product.votes", "product.vote", "product.collaborate", "product.comments", "product.funding", "product.goal", "product.raised"}
    ensures NoEmptyEntries(m)
  {
    match lang
    case En =>
      map[
        "product.votes" := "votes",
        "product.vote" := "Vote",
        "product.collaborate" := "Collaborate",
        "product.comments" := "Comments",
        "product.funding" := "Funding",
        "product.goal" := "Goal",
        "product.raised" := "Raised"
      ]
    case Am =>
      map[
        "product.votes" := "ድምጾች",
        "product.vote" := "ድምጽ",
        "product.collaborate" := "ተባበር",
        "product.comments" := "አስተያየቶች",
        "product.funding" := "የገንዘብ ድጋፍ",
        "product.goal" := "ግብ",
        "product.raised" := "የተሰበሰበ"
      ]
  }

  /** The "Categories" entries. */
  function CategoryStrings(lang: Lang): (m: map<string, string>)
    ensures m.Keys == {"category.all", "category.mobile", "category.web", "category.ai", "category.blockchain", "category.fintech", "category.healthtech", "category.edtech", "category.agtech"}
    ensures NoEmptyEntries(m)
  {
    match lang
    case En =>
      map[
        "category.all" := "All",
        "category.mobile" := "Mobile",
        "category.web" := "Web",
        "category.ai" := "AI/ML",
        "category.blockchain" := "Blockchain",
        "category.fintech" := "FinTech",
        "category.healthtech" := "HealthTech",
        "category.edtech" := "EdTech",
        "category.agtech" := "AgTech"
      ]
    case Am =>
      map[
        "category.all" := "ሁሉም",
        "category.mobile" := "ሞባይል",
        "category.web" := "ድር",
        "category.ai" := "AI/ML",
        "category.blockchain" := "ብሎክቼይን",
        "category.fintech" := "ፊንቴክ",
        "category.healthtech" := "ጤና ቴክኖሎጂ",
        "category.edtech" := "የትምህርት ቴክኖሎጂ",
        "category.agtech" := "የግብርና ቴክኖሎጂ"
      ]
  }

  /** The "Government" entries. */
  function GovernmentStrings(lang: Lang): (m: map<string, string>)
    ensures m.Keys == {"gov.title", "gov.subtitle", "gov.submit", "gov.status.submitted", "gov.status.under_review", "gov.status.accepted", "gov.status.declined"}
    ensures NoEmptyEntries(m)
  {
    match lang
    case En =>
      map[
        "gov.title" := "Government Proposals",
        "gov.subtitle" := "Submit proposals for government technology needs",
        "gov.submit" := "Submit Proposal",
        "gov.status.submitted" := "Submitted",
        "gov.status.under_review" := "Under Review",
        "gov.status.accepted" := "Accepted",
        "gov.status.declined" := "Declined"
      ]
    case Am =>
      map[
        "gov.title" := "የመንግስት ፕሮፖዛሎች",
        "gov.subtitle" := "ለመንግስት ቴክኖሎጂ ፍላጎ቎ች ፕሮፖዛል አስገቡ",
        "gov.submit" := "ፕሮፖዛል አስገባ",
        "gov.status.submitted" := "ቀርቧል",
        "gov.status.under_review" := "በሂደት ላይ",
        "gov.status.accepted" := "ተቀባይነት አግኝቷል",
        "gov.status.declined" := "ተቀባይነት አላገኘም"
      ]
  }

  /** The "Forms" entries. */
  function FormStrings(lang: Lang): (m: map<string, string>)
    ensures m.Keys == {"form.title", "form.description", "form.category", "form.tags", "form.website", "form.github", "form.submit", "form.cancel"}
    ensures NoEmptyEntries(m)
  {
    match lang
    case En =>
      map[
        "form.title" := "Title",
        "form.description" := "Description",
        "form.category" := "Category",
        "form.tags" := "Tags",
        "form.website" := "Website",
        "form.github" := "GitHub",
        "form.submit" := "Submit",
        "form.cancel" := "Cancel"
      ]
    case Am =>
      map[
        "form.title" := "አርዕስት",
        "form.description" := "መግለጫ",
        "form.category" := "ምድብ",
        "form.tags" := "መለያዎች",
        "form.website" := "ድህረ ገጽ",
        "form.github" := "GitHub",
        "form.submit" := "አስገባ",
        "form.cancel" := "ሰርዝ"
      ]
  }

  /** The "Common" entries. */
  function CommonStrings(lang: Lang): (m: map<string, string>)
    ensures m.Keys == {"common.search", "common.loading", "common.readMore", "common.showLess"}
    ensures NoEmptyEntries(m)
  {
    match lang
    case En =>
      map[
        "common.search" := "Search products...",
        "common.loading" := "Loading...",
        "common.readMore" := "Read More",
        "common.showLess" := "Show Less"
      ]
    case Am =>
      map[
        "common.search" := "ምርቶችን ፈልግ...",
        "common.loading" := "በመጫን ላይ...",
        "common.readMore" := "ተጨማሪ ያንብቡ",
        "common.showLess" := "አጠር አድርግ"
      ]
  }

  /** `translations[lang]`: the dictionary of one language, section by section. */
  function Dictionary(lang: Lang): (m: map<string, string>)
    ensures NoEmptyEntries(m)
  {
    var m1 := NavigationStrings(lang) + HomePageStrings(lang);
    UnionNoEmptyEntries(NavigationStrings(lang), HomePageStrings(lang));
    var m2 := m1 + ProductStrings(lang);
    UnionNoEmptyEntries(m1, ProductStrings(lang));
    var m3 := m2 + CategoryStrings(lang);
    UnionNoEmptyEntries(m2, CategoryStrings(lang));
    var m4 := m3 + GovernmentStrings(lang);
    UnionNoEmptyEntries(m3, GovernmentStrings(lang));
    var m5 := m4 + FormStrings(lang);
    UnionNoEmptyEntries(m4, FormStrings(lang));
    UnionNoEmptyEntries(m5, CommonStrings(lang));
    m5 + CommonStrings(lang)
  }

  /** Every entry of `m` is a non-empty string. */
  predicate NoEmptyEntries(m: map<string, string>) {
    forall k :: k in m ==> m[k] != ""
  }

  lemma UnionNoEmptyEntries(a: map<string, string>, b: map<string, string>)
    requires NoEmptyEntries(a) && NoEmptyEntries(b)
    ensures NoEmptyEntries(a + b)
  {
  }

  /** `translations[language][key] || key`. */
  function Translate(lang: Lang, key: string): (r: string)
    ensures key in Dictionary(lang) && Dictionary(lang)[key] != "" ==> r == Dictionary(lang)[key]
    ensures key !in Dictionary(lang) ==> r == key
    ensures r == key || (key in Dictionary(lang) && r == Dictionary(lang)[key])
  {
    if key in Dictionary(lang) && Dictionary(lang)[key] != "" then Dictionary(lang)[key] else key
  }

  /** The English and the Amharic dictionaries define the same keys. */
  lemma SameKeys()
    ensures Dictionary(En).Keys == Dictionary(Am).Keys
  {
  }

  /** No entry is the empty string, so a defined key is always translated. */
  lemma DefinedKeysTranslate(lang: Lang, key: string)
    requires key in Dictionary(lang)
    ensures Translate(lang, key) == Dictionary(lang)[key]
  {
  }

  function Toggled(lang: Lang): (r: Lang)
    ensures r != lang
  {
    if lang == En then Am else En
  }

  lemma ToggleTwice(lang: Lang)
    ensures Toggled(Toggled(lang)) == lang
  {
  }

  /** The provider's state: the current language, English at first. */
  class LanguageProvider {
    var language: Lang

    constructor ()
      ensures language == En
    {
      language := En;
    }

    method ToggleLanguage()
      modifies this
      ensures language == Toggled(old(language))
    {
      language := if language == En then Am else En;
    }

    /** `t(key)` for the current language. */
    function T(key: string): (r: string)
      reads this
      ensures r == Translate(language, key)
    {
      Translate(language, key)
    }
  }

  /** `useLanguage()`: the context value inside a provider, an error outside one. */
  function UseLanguage(context: Option<Lang>): (r: Result<Lang, string>)
    ensures context.Some? ==> r == Success(context.value)
    ensures context.None? ==> r == Failure("useLanguage must be used within a LanguageProvider")
  {
    match context
    case Some(l) => Success(l)
    case None => Failure("useLanguage must be used within a LanguageProvider")
  }

  /**
   * `language === 'am' && amharic ? amharic : english`: the Amharic variant
   * only when Amharic is selected and the variant is a non-empty string.
   * The cards and detail pages write this ternary inline for each title and
   * description; their members (`CardTitle`, `DetailTitle`, `ProposalTitle`
   * and the description counterparts) are this function applied to one field.
   */
  function Localized(lang: Lang, english: string, amharic: Option<string>): (r: string)
    ensures r == english || (amharic.Some? && r == amharic.value)
    ensures (lang == Am && Present(amharic)) ==> r == amharic.value
    ensures !(lang == Am && Present(amharic)) ==> r == english
  {
    if lang == Am && Present(amharic) then amharic.value else english
  }
}
