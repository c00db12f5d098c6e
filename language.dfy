/** The display language of the page and the lookup of bilingual copy. */
module Language {

  /** The two locales of the page. */
  datatype Lang = En | Th

  /** A piece of copy in both languages. */
  datatype Content = Content(en: string, th: string)

  /** The other locale: `en` becomes `th` and `th` becomes `en`. */
  function Toggled(l: Lang): (r: Lang)
    ensures r != l
  {
    if l == En then Th else En
  }

  /** Toggling twice gives back the locale one started from. */
  lemma ToggledTwice(l: Lang)
    ensures Toggled(Toggled(l)) == l
  {
  }

  /** `getText`: the side of `c` written in `l`. The result is one of the two
      sides, and where the sides differ it is the English one exactly when the
      locale is English. */
  function GetText(c: Content, l: Lang): (r: string)
    ensures r == c.en || r == c.th
    ensures c.en != c.th ==> (r == c.en <==> l == En)
  {
    match l
    case En => c.en
    case Th => c.th
  }

  /** After a toggle the page shows the other side of every piece of copy, so a
      piece reads the same before and after exactly when both sides agree. */
  lemma GetTextToggled(c: Content, l: Lang)
    ensures GetText(c, Toggled(l)) == (if l == En then c.th else c.en)
    ensures GetText(c, Toggled(l)) == GetText(c, l) <==> c.en == c.th
  {
  }

  /** The language state of the page. */
  class LanguageState {
    var language: Lang

    /** The page starts in English. */
    constructor ()
      ensures language == En
    {
      language := En;
    }

    /** `toggleLanguage`: switch to the other locale. */
    method ToggleLanguage()
      modifies this
      ensures language == Toggled(old(language))
    {
      language := Toggled(language);
    }
  }
}
