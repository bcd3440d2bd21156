/**
 * The site's translation context: two tables of display strings keyed by
 * dotted names, the current language held by the provider (English until the
 * user switches), the lookup `t` that falls back to the key itself, and the
 * `useLanguage` hook that refuses to run outside the provider.
 */
module LanguageContext {
  import opened Optional

  /** `"en" | "hi"`. */
  datatype Language = En | Hi

  // The tables, section by section as the source groups them.

  /** `translations.en`, lines 16-20. */
  const EnglishNavbar: map<string, string> := map[
    "nav.home" := "Home",
    "nav.education" := "Education Center",
    "nav.assessment" := "Sarcopenia Assessment",
    "nav.reportIssue" := "Report Issue",
    "nav.getStarted" := "Get Started"]

  /** `translations.en`, lines 23-33. */
  const EnglishHeroSection: map<string, string> := map[
    "hero.badge" := "Trusted by 50,000+ patients",
    "hero.title1" := "Empowering Your",
    "hero.title2" := "Bone",
    "hero.title3" := "Health",
    "hero.title4" := "Journey",
    "hero.subtitle" := "Get personalized guidance, expert resources, and 24/7 AI support to understand and improve your bone health. Start your journey today.",
    "hero.satisfaction" := "Satisfaction Rate",
    "hero.videos" := "Expert Videos",
    "hero.support" := "AI Support",
    "hero.startAssessment" := "Start Assessment",
    "hero.watchTutorials" := "Watch Tutorials"]

  /** `translations.en`, lines 36-42. */
  const EnglishEducationPage: map<string, string> := map[
    "education.title" := "Education Center",
    "education.subtitle" := "Explore our library of expert-curated videos on bone health, nutrition, exercise, and rehabilitation.",
    "education.search" := "Search videos...",
    "education.noResults" := "No videos found matching your search.",
    "education.clearFilters" := "Clear Filters",
    "education.views" := "views",
    "education.closeVideo" := "Close Video"]

  /** `translations.en`, lines 45-50. */
  const EnglishCategories: map<string, string> := map[
    "category.all" := "All",
    "category.nutrition" := "Nutrition",
    "category.exercise" := "Exercise",
    "category.rehabilitation" := "Rehabilitation",
    "category.fallPrevention" := "Fall Prevention",
    "category.understandingBMD" := "Understanding BMD"]

  /** `translations.en`, lines 53-56. */
  const EnglishFaqSection: map<string, string> := map[
    "faq.title" := "Frequently Asked Questions",
    "faq.subtitle" := "Find answers to common questions about bone health, osteoporosis, and managing your condition.",
    "faq.testing" := "Testing",
    "faq.treatment" := "Treatment"]

  /** `translations.en`, lines 59-70. */
  const EnglishFaqQuestions: map<string, string> := map[
    "faq.q1" := "What is a T-score and what does it mean?",
    "faq.a1" := "A T-score compares your bone density to that of a healthy 30-year-old adult. A T-score of -1.0 or above is normal, between -1.0 and -2.5 indicates osteopenia (low bone mass), and -2.5 or below indicates osteoporosis.",
    "faq.q2" := "How often should I get a bone density test?",
    "faq.a2" := "The frequency depends on your risk factors and previous test results. Generally, women over 65 and men over 70 should get tested every 1-2 years. Those with osteoporosis or high risk factors may need more frequent testing.",
    "faq.q3" := "What foods are best for bone health?",
    "faq.a3" := "Calcium-rich foods like dairy products, leafy greens, and fortified foods are essential. Vitamin D sources include fatty fish and fortified foods. Also important are protein, vitamin K (found in green vegetables), and minerals like magnesium and zinc.",
    "faq.q4" := "What exercises help prevent osteoporosis?",
    "faq.a4" := "Weight-bearing exercises like walking, jogging, and dancing, along with resistance training, are most beneficial. Balance exercises like tai chi can help prevent falls. Aim for at least 30 minutes of exercise most days of the week.",
    "faq.q5" := "Are there medications for osteoporosis?",
    "faq.a5" := "Yes, several medications are available including bisphosphonates, denosumab, and hormone-related therapies. Your doctor will recommend the best option based on your bone density, fracture risk, and overall health.",
    "faq.q6" := "How can I prevent falls at home?",
    "faq.a6" := "Remove tripping hazards, install grab bars in bathrooms, ensure good lighting, wear non-slip footwear, and keep frequently used items within easy reach. Regular balance exercises also help prevent falls."]

  /** `translations.en`, lines 73-79. */
  const EnglishFooter: map<string, string> := map[
    "footer.description" := "Empowering your bone health journey with expert guidance, educational resources, and personalized assessments. Your trusted partner in osteoporosis care.",
    "footer.quickLinks" := "Quick Links",
    "footer.findSpecialist" := "Find a Specialist",
    "footer.faqs" := "FAQs",
    "footer.contact" := "Contact",
    "footer.reportIssue" := "Report Issue",
    "footer.rights" := "All rights reserved."]

  /** `translations.en`, lines 82-83. */
  const EnglishSpecialistsSection: map<string, string> := map[
    "specialists.title" := "Meet Our Specialists",
    "specialists.subtitle" := "Connect with experienced healthcare professionals specializing in bone health and osteoporosis management."]

  /** `translations.hi`, lines 87-91. */
  const HindiNavbar: map<string, string> := map[
    "nav.home" := "होम",
    "nav.education" := "शिक्षा केंद्र",
    "nav.assessment" := "सार्कोपेनिया मूल्यांकन",
    "nav.reportIssue" := "समस्या बताएं",
    "nav.getStarted" := "शुरू करें"]

  /** `translations.hi`, lines 94-104. */
  const HindiHeroSection: map<string, string> := map[
    "hero.badge" := "50,000+ रोगियों द्वारा विश्वसनीय",
    "hero.title1" := "आपकी",
    "hero.title2" := "हड्डियों की",
    "hero.title3" := "स्वास्थ्य",
    "hero.title4" := "यात्रा को सशक्त बनाना",
    "hero.subtitle" := "अपनी हड्डियों के स्वास्थ्य को समझने और सुधारने के लिए व्यक्तिगत मार्गदर्शन, विशेषज्ञ संसाधन और 24/7 AI सहायता प्राप्त करें।",
    "hero.satisfaction" := "संतुष्टि दर",
    "hero.videos" := "विशेषज्ञ वीडियो",
    "hero.support" := "AI सहायता",
    "hero.startAssessment" := "मूल्यांकन शुरू करें",
    "hero.watchTutorials" := "ट्यूटोरियल देखें"]

  /** `translations.hi`, lines 107-113. */
  const HindiEducationPage: map<string, string> := map[
    "education.title" := "शिक्षा केंद्र",
    "education.subtitle" := "हड्डियों के स्वास्थ्य, पोषण, व्यायाम और पुनर्वास पर विशेषज्ञ वीडियो की हमारी लाइब्रेरी देखें।",
    "education.search" := "वीडियो खोजें...",
    "education.noResults" := "आपकी खोज से मेल खाने वाला कोई वीडियो नहीं मिला।",
    "education.clearFilters" := "फ़िल्टर साफ़ करें",
    "education.views" := "व्यूज",
    "education.closeVideo" := "वीडियो बंद करें"]

  /** `translations.hi`, lines 116-121. */
  const HindiCategories: map<string, string> := map[
    "category.all" := "सभी",
    "category.nutrition" := "पोषण",
    "category.exercise" := "व्यायाम",
    "category.rehabilitation" := "पुनर्वास",
    "category.fallPrevention" := "गिरने से रोकथाम",
    "category.understandingBMD" := "BMD को समझना"]

  /** `translations.hi`, lines 124-127. */
  const HindiFaqSection: map<string, string> := map[
    "faq.title" := "अक्सर पूछे जाने वाले प्रश्न",
    "faq.subtitle" := "हड्डियों के स्वास्थ्य, ऑस्टियोपोरोसिस और अपनी स्थिति के प्रबंधन के बारे में सामान्य प्रश्नों के उत्तर पाएं।",
    "faq.testing" := "परीक्षण",
    "faq.treatment" := "उपचार"]

  /** `translations.hi`, lines 130-141. */
  const HindiFaqQuestions: map<string, string> := map[
    "faq.q1" := "T-स्कोर क्या है और इसका क्या मतलब है?",
    "faq.a1" := "T-स्कोर आपकी हड्डी की घनत्व की तुलना एक स्वस्थ 30 वर्षीय वयस्क से करता है। -1.0 या उससे ऊपर का T-स्कोर सामान्य है, -1.0 और -2.5 के बीच ऑस्टियोपेनिया (कम हड्डी द्रव्यमान) को इंगित करता है, और -2.5 या उससे नीचे ऑस्टियोपोरोसिस को इंगित करता है।",
    "faq.q2" := "मुझे कितनी बार बोन डेंसिटी टेस्ट करवाना चाहिए?",
    "faq.a2" := "आवृत्ति आपके जोखिम कारकों और पिछले परीक्षण परिणामों पर निर्भर करती है। आमतौर पर, 65 से अधिक उम्र की महिलाओं और 70 से अधिक उम्र के पुरुषों को हर 1-2 साल में परीक्षण करवाना चाहिए।",
    "faq.q3" := "हड्डियों के स्वास्थ्य के लिए कौन से खाद्य पदार्थ सबसे अच्छे हैं?",
    "faq.a3" := "डेयरी उत्पाद, पत्तेदार सब्जियां और फोर्टिफाइड खाद्य पदार्थों जैसे कैल्शियम युक्त खाद्य पदार्थ आवश्यक हैं। विटामिन डी के स्रोतों में फैटी मछली और फोर्टिफाइड खाद्य पदार्थ शामिल हैं।",
    "faq.q4" := "कौन से व्यायाम ऑस्टियोपोरोसिस को रोकने में मदद करते हैं?",
    "faq.a4" := "चलना, जॉगिंग और नृत्य जैसे वजन उठाने वाले व्यायाम, प्रतिरोध प्रशिक्षण के साथ, सबसे फायदेमंद हैं। ताई ची जैसे संतुलन व्यायाम गिरने से रोकने में मदद कर सकते हैं।",
    "faq.q5" := "क्या ऑस्टियोपोरोसिस के लिए दवाएं हैं?",
    "faq.a5" := "हां, बिसफॉस्फोनेट्स, डेनोसुमैब और हार्मोन-संबंधित थेरेपी सहित कई दवाएं उपलब्ध हैं। आपका डॉक्टर आपकी हड्डी की घनत्व, फ्रैक्चर जोखिम और समग्र स्वास्थ्य के आधार पर सबसे अच्छा विकल्प सुझाएंगे।",
    "faq.q6" := "घर पर गिरने से कैसे बचें?",
    "faq.a6" := "ट्रिपिंग खतरों को हटाएं, बाथरूम में ग्रैब बार लगाएं, अच्छी रोशनी सुनिश्चित करें, नॉन-स्लिप फुटवियर पहनें और अक्सर उपयोग की जाने वाली वस्तुओं को आसान पहुंच के भीतर रखें।"]

  /** `translations.hi`, lines 144-150. */
  const HindiFooter: map<string, string> := map[
    "footer.description" := "विशेषज्ञ मार्गदर्शन, शैक्षिक संसाधनों और व्यक्तिगत मूल्यांकन के साथ आपकी हड्डियों की स्वास्थ्य यात्रा को सशक्त बनाना।",
    "footer.quickLinks" := "त्वरित लिंक",
    "footer.findSpecialist" := "विशेषज्ञ खोजें",
    "footer.faqs" := "सामान्य प्रश्न",
    "footer.contact" := "संपर्क",
    "footer.reportIssue" := "समस्या बताएं",
    "footer.rights" := "सर्वाधिकार सुरक्षित।"]

  /** `translations.hi`, lines 153-154. */
  const HindiSpecialistsSection: map<string, string> := map[
    "specialists.title" := "हमारे विशेषज्ञों से मिलें",
    "specialists.subtitle" := "हड्डियों के स्वास्थ्य और ऑस्टियोपोरोसिस प्रबंधन में विशेषज्ञता रखने वाले अनुभवी स्वास्थ्य पेशेवरों से जुड़ें।"]

  /** `translations.en`, section by section (no key occurs in two sections). */
  const EnglishSections: seq<map<string, string>> := [
    EnglishNavbar, EnglishHeroSection, EnglishEducationPage, EnglishCategories,
    EnglishFaqSection, EnglishFaqQuestions, EnglishFooter, EnglishSpecialistsSection]

  /** `translations.hi`, in the same sections. */
  const HindiSections: seq<map<string, string>> := [
    HindiNavbar, HindiHeroSection, HindiEducationPage, HindiCategories,
    HindiFaqSection, HindiFaqQuestions, HindiFooter, HindiSpecialistsSection]

  /** `useState<Language>("en")`: the provider starts in English. */
  const DefaultLanguage := En

  const OutsideProviderMessage := "useLanguage must be used within a LanguageProvider"

  /** `translations[language]`. */
  function Sections(language: Language): seq<map<string, string>>
  {
    match language
    case En => EnglishSections
    case Hi => HindiSections
  }

  /** `table[key]` on a table given as its sections: the entry of the last section that
    * holds `key` (a later property of an object literal overrides an earlier one), or
    * `None` for `undefined`. */
  function Lookup(sections: seq<map<string, string>>, key: string): (r: Option<string>)
    ensures r.None? <==> forall i | 0 <= i < |sections| :: key !in sections[i]
    ensures r.Some? ==> exists i | 0 <= i < |sections| :: key in sections[i] && r.value == sections[i][key]
                                                          && forall j | i < j < |sections| :: key !in sections[j]
  {
    Find(sections, |sections|, key)
  }

  /** `Lookup` restricted to the first `n` sections, searched from the last one back. */
  function Find(sections: seq<map<string, string>>, n: nat, key: string): (r: Option<string>)
    requires n <= |sections|
    ensures r.None? <==> forall i | 0 <= i < n :: key !in sections[i]
    ensures r.Some? ==> exists i | 0 <= i < n :: key in sections[i] && r.value == sections[i][key]
                                                 && forall j | i < j < n :: key !in sections[j]
    decreases n
  {
    if n == 0 then None
    else if key in sections[n - 1] then Some(sections[n - 1][key])
    else Find(sections, n - 1, key)
  }

  /** `key in translations[language]`. */
  predicate InTable(language: Language, key: string)
  {
    Lookup(Sections(language), key).Some?
  }

  /** The table holds an entry for `key` that `||` keeps (present and not `""`). */
  predicate HasEntry(language: Language, key: string)
  {
    var entry := Lookup(Sections(language), key);
    entry.Some? && entry.value != ""
  }

  /** `t(key)`: `translations[language][key] || key`. */
  function Translate(language: Language, key: string): (s: string)
    ensures HasEntry(language, key) ==> s == Lookup(Sections(language), key).value
    ensures !HasEntry(language, key) ==> s == key
  {
    if HasEntry(language, key) then Lookup(Sections(language), key).value else key
  }

  /** A key that none of the first `n` sections holds is not found in them. */
  lemma {:induction false} FindAbsent(sections: seq<map<string, string>>, n: nat, key: string)
    requires n <= |sections|
    requires forall i | 0 <= i < n :: key !in sections[i]
    ensures Find(sections, n, key).None?
  {
    if n > 0 {
      FindAbsent(sections, n - 1, key);
    }
  }

  /** A key that both tables hold or neither does, with a real translation in each that
    * holds it: not empty, and not the key itself. */
  ghost predicate Translated(english: map<string, string>, hindi: map<string, string>, key: string)
  {
    && (key in english <==> key in hindi)
    && (key in english ==> english[key] != "" && english[key] != key)
    && (key in hindi ==> hindi[key] != "" && hindi[key] != key)
  }

  /** Two tables that translate the same keys, with no entry empty and none equal to its key. */
  ghost predicate Parallel(english: map<string, string>, hindi: map<string, string>)
  {
    forall key {:trigger Translated(english, hindi, key)} :: Translated(english, hindi, key)
  }

  lemma NavbarParallel()
    ensures Parallel(EnglishNavbar, HindiNavbar)
  {
    NavbarSameKeys();
    NavbarEntries(EnglishNavbar);
    NavbarEntries(HindiNavbar);
  }

  lemma NavbarSameKeys()
    ensures EnglishNavbar.Keys == HindiNavbar.Keys
  {
  }

  lemma NavbarLacksFollowUp()
    ensures "nav.followUp" !in EnglishNavbar && "nav.followUp" !in HindiNavbar
  {
  }

  lemma NavbarEntries(table: map<string, string>)
    requires table == EnglishNavbar || table == HindiNavbar
    ensures forall key | key in table :: table[key] != "" && table[key] != key
  {
  }

  lemma HeroSectionParallel()
    ensures Parallel(EnglishHeroSection, HindiHeroSection)
  {
    HeroSectionSameKeys();
    HeroSectionEntries(EnglishHeroSection);
    HeroSectionEntries(HindiHeroSection);
  }

  lemma HeroSectionSameKeys()
    ensures EnglishHeroSection.Keys == HindiHeroSection.Keys
  {
  }

  lemma HeroSectionLacksFollowUp()
    ensures "nav.followUp" !in EnglishHeroSection && "nav.followUp" !in HindiHeroSection
  {
  }

  lemma HeroSectionEntries(table: map<string, string>)
    requires table == EnglishHeroSection || table == HindiHeroSection
    ensures forall key | key in table :: table[key] != "" && table[key] != key
  {
  }

  lemma EducationPageParallel()
    ensures Parallel(EnglishEducationPage, HindiEducationPage)
  {
    EducationPageSameKeys();
    EducationPageEntries(EnglishEducationPage);
    EducationPageEntries(HindiEducationPage);
  }

  lemma EducationPageSameKeys()
    ensures EnglishEducationPage.Keys == HindiEducationPage.Keys
  {
  }

  lemma EducationPageLacksFollowUp()
    ensures "nav.followUp" !in EnglishEducationPage && "nav.followUp" !in HindiEducationPage
  {
  }

  lemma EducationPageEntries(table: map<string, string>)
    requires table == EnglishEducationPage || table == HindiEducationPage
    ensures forall key | key in table :: table[key] != "" && table[key] != key
  {
  }

  lemma CategoriesParallel()
    ensures Parallel(EnglishCategories, HindiCategories)
  {
    CategoriesSameKeys();
    CategoriesEntries(EnglishCategories);
    CategoriesEntries(HindiCategories);
  }

  lemma CategoriesSameKeys()
    ensures EnglishCategories.Keys == HindiCategories.Keys
  {
  }

  lemma CategoriesLacksFollowUp()
    ensures "nav.followUp" !in EnglishCategories && "nav.followUp" !in HindiCategories
  {
  }

  lemma CategoriesEntries(table: map<string, string>)
    requires table == EnglishCategories || table == HindiCategories
    ensures forall key | key in table :: table[key] != "" && table[key] != key
  {
  }

  lemma FaqSectionParallel()
    ensures Parallel(EnglishFaqSection, HindiFaqSection)
  {
    FaqSectionSameKeys();
    FaqSectionEntries(EnglishFaqSection);
    FaqSectionEntries(HindiFaqSection);
  }

  lemma FaqSectionSameKeys()
    ensures EnglishFaqSection.Keys == HindiFaqSection.Keys
  {
  }

  lemma FaqSectionLacksFollowUp()
    ensures "nav.followUp" !in EnglishFaqSection && "nav.followUp" !in HindiFaqSection
  {
  }

  lemma FaqSectionEntries(table: map<string, string>)
    requires table == EnglishFaqSection || table == HindiFaqSection
    ensures forall key | key in table :: table[key] != "" && table[key] != key
  {
  }

  lemma FaqQuestionsParallel()
    ensures Parallel(EnglishFaqQuestions, HindiFaqQuestions)
  {
    FaqQuestionsSameKeys();
    FaqQuestionsEntries(EnglishFaqQuestions);
    FaqQuestionsEntries(HindiFaqQuestions);
  }

  lemma FaqQuestionsSameKeys()
    ensures EnglishFaqQuestions.Keys == HindiFaqQuestions.Keys
  {
  }

  lemma FaqQuestionsLacksFollowUp()
    ensures "nav.followUp" !in EnglishFaqQuestions && "nav.followUp" !in HindiFaqQuestions
  {
  }

  lemma FaqQuestionsEntries(table: map<string, string>)
    requires table == EnglishFaqQuestions || table == HindiFaqQuestions
    ensures forall key | key in table :: table[key] != "" && table[key] != key
  {
  }

  lemma FooterParallel()
    ensures Parallel(EnglishFooter, HindiFooter)
  {
    FooterSameKeys();
    FooterEntries(EnglishFooter);
    FooterEntries(HindiFooter);
  }

  lemma FooterSameKeys()
    ensures EnglishFooter.Keys == HindiFooter.Keys
  {
  }

  lemma FooterLacksFollowUp()
    ensures "nav.followUp" !in EnglishFooter && "nav.followUp" !in HindiFooter
  {
  }

  lemma FooterEntries(table: map<string, string>)
    requires table == EnglishFooter || table == HindiFooter
    ensures forall key | key in table :: table[key] != "" && table[key] != key
  {
  }

  lemma SpecialistsSectionParallel()
    ensures Parallel(EnglishSpecialistsSection, HindiSpecialistsSection)
  {
    SpecialistsSectionSameKeys();
    SpecialistsSectionEntries(EnglishSpecialistsSection);
    SpecialistsSectionEntries(HindiSpecialistsSection);
  }

  lemma SpecialistsSectionSameKeys()
    ensures EnglishSpecialistsSection.Keys == HindiSpecialistsSection.Keys
  {
  }

  lemma SpecialistsSectionLacksFollowUp()
    ensures "nav.followUp" !in EnglishSpecialistsSection && "nav.followUp" !in HindiSpecialistsSection
  {
  }

  lemma SpecialistsSectionEntries(table: map<string, string>)
    requires table == EnglishSpecialistsSection || table == HindiSpecialistsSection
    ensures forall key | key in table :: table[key] != "" && table[key] != key
  {
  }

  /** Two tables, given as their sections, that are parallel section by section. */
  ghost predicate ParallelSections(english: seq<map<string, string>>, hindi: seq<map<string, string>>)
  {
    |english| == |hindi| && ParallelUpTo(english, hindi, |english|)
  }

  /** The first `n` sections of the two tables are parallel. */
  ghost predicate ParallelUpTo(english: seq<map<string, string>>, hindi: seq<map<string, string>>, n: nat)
    decreases n
  {
    n <= |english| && n <= |hindi|
    && (n > 0 ==> Parallel(english[n - 1], hindi[n - 1]) && ParallelUpTo(english, hindi, n - 1))
  }

  /** Tables parallel section by section hold the same keys, each with a real entry. */
  lemma LookupParallel(english: seq<map<string, string>>, hindi: seq<map<string, string>>, key: string)
    requires ParallelSections(english, hindi)
    ensures Lookup(english, key).Some? <==> Lookup(hindi, key).Some?
    ensures Lookup(english, key).Some? ==> Lookup(english, key).value != "" && Lookup(english, key).value != key
    ensures Lookup(hindi, key).Some? ==> Lookup(hindi, key).value != "" && Lookup(hindi, key).value != key
  {
    FindParallel(english, hindi, |english|, key);
  }

  lemma {:induction false} FindParallel(english: seq<map<string, string>>, hindi: seq<map<string, string>>, n: nat, key: string)
    requires ParallelUpTo(english, hindi, n)
    ensures Find(english, n, key).Some? <==> Find(hindi, n, key).Some?
    ensures Find(english, n, key).Some? ==> Find(english, n, key).value != "" && Find(english, n, key).value != key
    ensures Find(hindi, n, key).Some? ==> Find(hindi, n, key).value != "" && Find(hindi, n, key).value != key
    decreases n
  {
    if n > 0 {
      assert Translated(english[n - 1], hindi[n - 1], key);
      FindParallel(english, hindi, n - 1, key);
    }
  }

  /** The two tables translate the same keys, and every entry is a real translation. */
  lemma TablesParallel()
    ensures ParallelSections(EnglishSections, HindiSections)
  {
    LeadingSectionsParallel();
    FaqSectionParallel();
    assert ParallelUpTo(EnglishSections, HindiSections, 5);
    FaqQuestionsParallel();
    assert ParallelUpTo(EnglishSections, HindiSections, 6);
    FooterParallel();
    assert ParallelUpTo(EnglishSections, HindiSections, 7);
    SpecialistsSectionParallel();
    assert ParallelUpTo(EnglishSections, HindiSections, 8);
  }

  /** The first four sections of the two tables are parallel. */
  lemma LeadingSectionsParallel()
    ensures ParallelUpTo(EnglishSections, HindiSections, 4)
  {
    assert ParallelUpTo(EnglishSections, HindiSections, 0);
    NavbarParallel();
    assert ParallelUpTo(EnglishSections, HindiSections, 1);
    HeroSectionParallel();
    assert ParallelUpTo(EnglishSections, HindiSections, 2);
    EducationPageParallel();
    assert ParallelUpTo(EnglishSections, HindiSections, 3);
    CategoriesParallel();
    assert ParallelUpTo(EnglishSections, HindiSections, 4);
  }

  /** Every key of the English table is translated, in both languages, by its own entry. */
  lemma EveryKeyTranslated(language: Language, key: string)
    requires InTable(En, key)
    ensures InTable(Hi, key)
    ensures HasEntry(language, key)
    ensures Translate(language, key) == Lookup(Sections(language), key).value != key
  {
    TablesParallel();
    LookupParallel(EnglishSections, HindiSections, key);
  }

  /** `t` shows the key itself exactly when the key is in neither table. */
  lemma ShowsKeyIffMissing(language: Language, key: string)
    ensures Translate(language, key) == key <==> !InTable(En, key) && !InTable(Hi, key)
  {
    TablesParallel();
    LookupParallel(EnglishSections, HindiSections, key);
  }

  /** The navigation bar's `t("nav.followUp")` is in neither table, so it shows the key. */
  lemma FollowUpLinkShowsKey(language: Language)
    ensures !InTable(En, "nav.followUp") && !InTable(Hi, "nav.followUp")
    ensures Translate(language, "nav.followUp") == "nav.followUp"
  {
    FollowUpKeyNotInEnglish();
    FollowUpKeyNotInHindi();
    FindAbsent(EnglishSections, |EnglishSections|, "nav.followUp");
    FindAbsent(HindiSections, |HindiSections|, "nav.followUp");
  }

  lemma FollowUpKeyNotInEnglish()
    ensures forall i | 0 <= i < |EnglishSections| :: "nav.followUp" !in EnglishSections[i]
  {
    NavbarLacksFollowUp();
    HeroSectionLacksFollowUp();
    EducationPageLacksFollowUp();
    CategoriesLacksFollowUp();
    FaqSectionLacksFollowUp();
    FaqQuestionsLacksFollowUp();
    FooterLacksFollowUp();
    SpecialistsSectionLacksFollowUp();
  }

  lemma FollowUpKeyNotInHindi()
    ensures forall i | 0 <= i < |HindiSections| :: "nav.followUp" !in HindiSections[i]
  {
    NavbarLacksFollowUp();
    HeroSectionLacksFollowUp();
    EducationPageLacksFollowUp();
    CategoriesLacksFollowUp();
    FaqSectionLacksFollowUp();
    FaqQuestionsLacksFollowUp();
    FooterLacksFollowUp();
    SpecialistsSectionLacksFollowUp();
  }

  /** What the provider hands to its consumers: the current language, with `setLanguage` and `t`. */
  datatype ContextValue = ContextValue(language: Language) {
    /** The context value's `t`: a key no section holds shows as itself, and any other
      * text shown is an entry of the current language's table. */
    function T(key: string): (s: string)
      ensures (forall i | 0 <= i < |Sections(language)| :: key !in Sections(language)[i]) ==> s == key
      ensures s != key ==> exists i | 0 <= i < |Sections(language)| :: key in Sections(language)[i] && s == Sections(language)[i][key]
    {
      Translate(language, key)
    }
  }

  /** What `useLanguage()` does: hand over the context value, or throw. */
  datatype HookResult = Provided(value: ContextValue) | Thrown(message: string)

  /** `useLanguage()`; `context` is `None` outside every `LanguageProvider`. */
  function UseLanguage(context: Option<ContextValue>): (r: HookResult)
    ensures r.Thrown? <==> context.None?
    ensures r.Thrown? ==> r.message == OutsideProviderMessage
    ensures r.Provided? ==> r.value == context.value
  {
    match context
    case None => Thrown(OutsideProviderMessage)
    case Some(value) => Provided(value)
  }

  /** `LanguageProvider`: its one piece of state is the current language. */
  class LanguageProvider {
    var language: Language

    constructor()
      ensures language == DefaultLanguage
    {
      language := DefaultLanguage;
    }

    /** `value={{ language, setLanguage, t }}`. */
    function Value(): (v: ContextValue)
      reads this
      ensures v.language == language
    {
      ContextValue(language)
    }

    /** `setLanguage(lang)`: from now on `t` consults the other table, and nothing else changes. */
    method SetLanguage(lang: Language)
      modifies this
      ensures language == lang
      ensures forall key :: Value().T(key) == Translate(lang, key)
    {
      language := lang;
    }
  }

  /** A fresh provider answers every key from the English table. */
  lemma StartsInEnglish(key: string)
    ensures ContextValue(DefaultLanguage).T(key) == Translate(En, key)
  {
  }
}
