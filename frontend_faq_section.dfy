/**
 * The FAQ section of the second front end: the same six entries and category
 * filter as the home page's, but every question, answer and button label is
 * the current language's text, read through `t` from `useLanguage()`. That
 * front end's language context is not part of this model, so `t` is a
 * parameter: any lookup from translation key to text.
 */
module FrontendFaqSection {
  import opened Optional
  import opened Lists
  import opened FaqSection
  import opened Text

  /** The category keys, in button order. */
  const CategoryKeys: seq<string> := ["All", "Testing", "Nutrition", "Exercise", "Treatment"]

  /** The translation key of each button's label, in the same order. */
  const LabelKeys: seq<string> := ["category.all", "faq.testing", "category.nutrition", "category.exercise", "faq.treatment"]

  /** `categories`. */
  function Categories(t: string -> string): (cs: seq<CategoryButton>)
    ensures |cs| == 5
    ensures forall i :: 0 <= i < |cs| ==> cs[i].key == CategoryKeys[i] && cs[i].caption == t(LabelKeys[i])
  {
    Buttons(CategoryKeys, LabelKeys, t)
  }

  /** `faqs`: the entries, each text the translation of its own key. */
  function Faqs(t: string -> string): (faqs: seq<Faq>)
    ensures |faqs| == 6
  {
    [ Faq("1", t("faq.q1"), t("faq.a1"), "Testing"),
      Faq("2", t("faq.q2"), t("faq.a2"), "Testing"),
      Faq("3", t("faq.q3"), t("faq.a3"), "Nutrition"),
      Faq("4", t("faq.q4"), t("faq.a4"), "Exercise"),
      Faq("5", t("faq.q5"), t("faq.a5"), "Treatment"),
      Faq("6", t("faq.q6"), t("faq.a6"), "Exercise") ]
  }

  /** Entry `n` (counting from 1) has id `n`, and its question and answer are `t` of
    * `faq.q<n>` and `faq.a<n>`: whatever `t` answers for those keys, the key itself
    * included when it has no entry. */
  lemma TextsFromTranslation(t: string -> string)
    ensures forall i :: 0 <= i < 6 ==>
      && Faqs(t)[i].id == [DigitChar(i + 1)]
      && Faqs(t)[i].question == t("faq.q" + Faqs(t)[i].id)
      && Faqs(t)[i].answer == t("faq.a" + Faqs(t)[i].id)
  {
    var faqs := Faqs(t);
    forall i | 0 <= i < 6
      ensures faqs[i].id == [DigitChar(i + 1)]
      ensures faqs[i].question == t("faq.q" + faqs[i].id)
      ensures faqs[i].answer == t("faq.a" + faqs[i].id)
    {
      var d := DigitChar(i + 1);
      assert d == "0123456789"[i + 1];
      assert "faq.q" + [d] == ['f', 'a', 'q', '.', 'q', d];
      assert "faq.a" + [d] == ['f', 'a', 'q', '.', 'a', d];
    }
  }

  /** `filteredFaqs`: all six entries for `"All"`; for any other key exactly the entries of
    * that category, in their original order. */
  function FilteredFaqs(t: string -> string, category: string): (r: seq<Faq>)
    ensures category == "All" ==> r == Faqs(t) && |r| == 6
    ensures category != "All" ==>
      && SubsequenceAt(r, Faqs(t), KeptIndices(Faqs(t), f => InCategory(f, category)))
      && forall i :: 0 <= i < 6 ==>
           (Faqs(t)[i].category == category <==> i in KeptIndices(Faqs(t), f => InCategory(f, category)))
  {
    if category != "All" then FilterFaqsExact(Faqs(t), category); FilterFaqs(Faqs(t), category)
    else FilterFaqs(Faqs(t), category)
  }

  /** The category of each entry, as an index into the buttons. */
  function CategoryIndex(i: nat): nat
  {
    if i < 2 then 1 else if i == 2 then 2 else if i == 4 then 4 else 3
  }

  /** Every entry's category is a button key other than "All", so its badge always has a
    * label: `t` of that button's label key. */
  lemma EveryBadgeLabelled(t: string -> string, i: nat)
    requires i < 6
    ensures Faqs(t)[i].category in CategoryKeys
    ensures exists k :: 1 <= k < |CategoryKeys| && CategoryKeys[k] == Faqs(t)[i].category
                        && LabelOf(Categories(t), Faqs(t)[i].category) == Some(t(LabelKeys[k]))
  {
    var k := CategoryIndex(i);
    assert CategoryKeys[k] == Faqs(t)[i].category;
    assert Distinct(CategoryKeys);
    LabelOfOwnKey(CategoryKeys, LabelKeys, t, k);
  }

  /** The state of the section: the selected category button. */
  class FrontendFaqSectionState {
    var selectedCategory: string

    constructor ()
      ensures selectedCategory == "All"
    {
      selectedCategory := "All";
    }

    /** The entries the accordion shows. */
    function Shown(t: string -> string): (r: seq<Faq>)
      reads this
      ensures r == FilteredFaqs(t, selectedCategory)
    {
      FilteredFaqs(t, selectedCategory)
    }

    /** Clicking a category button selects its key. */
    method SelectCategory(button: CategoryButton)
      modifies this
      ensures selectedCategory == button.key
    {
      selectedCategory := button.key;
    }
  }
}
