/**
 * The home page's FAQ section: six fixed questions with answers, each tagged
 * with a category, and a row of category buttons; "All" shows the whole list,
 * any other category only its own questions, in list order.
 */
module FaqSection {
  import opened Lists

  datatype Faq = Faq(id: string, question: string, answer: string, category: string)

  /** `categories`: the button keys, which are also their labels. */
  const Categories: seq<string> := ["All", "Testing", "Nutrition", "Exercise", "Treatment"]

  // The question and answer of each entry.
  const Question1 := "What is a T-score and what does it mean?"
  const Answer1 := "A T-score compares your bone density to that of a healthy 30-year-old adult. A T-score of -1.0 or above is normal, between -1.0 and -2.5 indicates osteopenia (low bone mass), and -2.5 or below indicates osteoporosis."
  const Question2 := "How often should I get a bone density test?"
  const Answer2 := "The frequency depends on your risk factors and previous test results. Generally, women over 65 and men over 70 should get tested every 1-2 years. Those with osteoporosis or high risk factors may need more frequent testing."
  const Question3 := "What foods are best for bone health?"
  const Answer3 := "Calcium-rich foods like dairy products, leafy greens, and fortified foods are essential. Vitamin D sources include fatty fish and fortified foods. Also important are protein, vitamin K (found in green vegetables), and minerals like magnesium and zinc."
  const Question4 := "What exercises help prevent osteoporosis?"
  const Answer4 := "Weight-bearing exercises like walking, jogging, and dancing, along with resistance training, are most beneficial. Balance exercises like tai chi can help prevent falls. Aim for at least 30 minutes of exercise most days of the week."
  const Question5 := "Are there medications for osteoporosis?"
  const Answer5 := "Yes, several medications are available including bisphosphonates, denosumab, and hormone-related therapies. Your doctor will recommend the best option based on your bone density, fracture risk, and overall health."
  const Question6 := "How can I prevent falls at home?"
  const Answer6 := "Remove tripping hazards, install grab bars in bathrooms, ensure good lighting, wear non-slip footwear, and keep frequently used items within easy reach. Regular balance exercises also help prevent falls."

  /** `faqs`, in display order. */
  const Faqs: seq<Faq> := [
    Faq("1", Question1, Answer1, "Testing"),
    Faq("2", Question2, Answer2, "Testing"),
    Faq("3", Question3, Answer3, "Nutrition"),
    Faq("4", Question4, Answer4, "Exercise"),
    Faq("5", Question5, Answer5, "Treatment"),
    Faq("6", Question6, Answer6, "Exercise")]

  /** The callback of the category filter. */
  predicate InCategory(faq: Faq, category: string)
  {
    faq.category == category
  }

  /** `filteredFaqs` over a list of FAQs: the list itself for `"All"`, otherwise the
    * entries of the selected category. */
  function FilterFaqs(faqs: seq<Faq>, category: string): (r: seq<Faq>)
    ensures category == "All" ==> r == faqs
    ensures category != "All" ==> forall f :: f in r ==> f in faqs && f.category == category
  {
    if category == "All" then faqs else Filter(faqs, f => InCategory(f, category))
  }

  /** Any category but `"All"` keeps exactly the entries of that category, each at most
    * once and in their original order. */
  lemma FilterFaqsExact(faqs: seq<Faq>, category: string)
    requires category != "All"
    ensures var keep := f => InCategory(f, category);
      && SubsequenceAt(FilterFaqs(faqs, category), faqs, KeptIndices(faqs, keep))
      && forall i :: 0 <= i < |faqs| ==> (faqs[i].category == category <==> i in KeptIndices(faqs, keep))
  {
    FilterIsSubsequence(faqs, f => InCategory(f, category));
  }

  /** Selecting the same category again shows the same list. */
  lemma FilterFaqsIdempotent(faqs: seq<Faq>, category: string)
    ensures FilterFaqs(FilterFaqs(faqs, category), category) == FilterFaqs(faqs, category)
  {
    if category != "All" {
      FilterIdempotent(faqs, f => InCategory(f, category));
    }
  }

  /** The ids of a list of FAQs, in order. */
  function Ids(faqs: seq<Faq>): (ids: seq<string>)
    ensures |ids| == |faqs|
    ensures forall i :: 0 <= i < |faqs| ==> ids[i] == faqs[i].id
  {
    seq(|faqs|, i requires 0 <= i < |faqs| => faqs[i].id)
  }

  /** Every entry's category is one of the buttons other than "All". */
  lemma FaqCategoriesListed()
    ensures forall i :: 0 <= i < |Faqs| ==> Faqs[i].category in Categories[1..]
  {
  }

  /** A category that has no button shows nothing. */
  lemma UnknownCategoryShowsNothing(category: string)
    requires category !in Categories
    ensures FilterFaqs(Faqs, category) == []
  {
    FaqCategoriesListed();
    assert forall i :: 0 <= i < |Faqs| ==> !InCategory(Faqs[i], category);
    FilterDropsAll(Faqs, f => InCategory(f, category));
  }

  /** "Testing" shows the first two questions. */
  lemma TestingExample()
    ensures Ids(FilterFaqs(Faqs, "Testing")) == ["1", "2"]
  {
    TestingTags();
    FirstTwoSelected(Faqs, "Testing");
  }

  lemma TestingTags()
    ensures |Faqs| == 6 && Faqs[0].id == "1" && Faqs[1].id == "2"
    ensures forall i :: 0 <= i < 6 ==> (Faqs[i].category == "Testing" <==> i < 2)
  {
  }

  /** "Exercise" shows the fourth and the sixth question. */
  lemma ExerciseExample()
    ensures Ids(FilterFaqs(Faqs, "Exercise")) == ["4", "6"]
  {
    ExerciseTags();
    FourthAndSixthSelected(Faqs, "Exercise");
  }

  lemma ExerciseTags()
    ensures |Faqs| == 6 && Faqs[3].id == "4" && Faqs[5].id == "6"
    ensures forall i :: 0 <= i < 6 ==> (Faqs[i].category == "Exercise" <==> i == 3 || i == 5)
  {
  }

  /** A category held by exactly the first two of six entries shows those two. */
  lemma FirstTwoSelected(faqs: seq<Faq>, category: string)
    requires |faqs| == 6 && category != "All"
    requires forall i :: 0 <= i < 6 ==> (faqs[i].category == category <==> i < 2)
    ensures FilterFaqs(faqs, category) == faqs[..2]
  {
    var keep := f => InCategory(f, category);
    var head, tail := faqs[..2], faqs[2..];
    assert head + tail == faqs;
    assert forall i :: 0 <= i < |head| ==> keep(head[i]) by {
      assert forall i :: 0 <= i < |head| ==> head[i] == faqs[i];
    }
    assert forall i :: 0 <= i < |tail| ==> !keep(tail[i]) by {
      assert forall i :: 0 <= i < |tail| ==> tail[i] == faqs[i + 2];
    }
    FilterAppend(head, tail, keep);
    FilterKeepsAll(head, keep);
    FilterDropsAll(tail, keep);
  }

  /** A category held by exactly the fourth and the sixth of six entries shows those two. */
  lemma FourthAndSixthSelected(faqs: seq<Faq>, category: string)
    requires |faqs| == 6 && category != "All"
    requires forall i :: 0 <= i < 6 ==> (faqs[i].category == category <==> i == 3 || i == 5)
    ensures FilterFaqs(faqs, category) == [faqs[3], faqs[5]]
  {
    var keep := f => InCategory(f, category);
    var head := faqs[..3];
    assert forall i :: 0 <= i < |head| ==> !keep(head[i]) by {
      assert forall i :: 0 <= i < |head| ==> head[i] == faqs[i];
    }
    FilterDropsAll(head, keep);
    assert faqs[..4][..3] == head && faqs[..5][..4] == faqs[..4];
    assert Filter(faqs[..4], keep) == [faqs[3]];
    assert Filter(faqs[..5], keep) == [faqs[3]];
    assert faqs[..|faqs| - 1] == faqs[..5];
  }

  /** The state of the FAQ section: the selected category button. */
  class FaqSectionState {
    var selectedCategory: string

    constructor ()
      ensures selectedCategory == "All"
    {
      selectedCategory := "All";
    }

    /** The entries the accordion shows. */
    function FilteredFaqs(): (r: seq<Faq>)
      reads this
      ensures r == FilterFaqs(Faqs, selectedCategory)
    {
      FilterFaqs(Faqs, selectedCategory)
    }

    /** Clicking a category button. */
    method SelectCategory(category: string)
      modifies this
      ensures selectedCategory == category
    {
      selectedCategory := category;
    }
  }
}
