/**
 * The video library page: nine educational videos with titles in English and
 * Hindi, filtered by a search query on the title in the current language and by
 * a category button; the category badge shown on each card; the abbreviated
 * view counts; and the page state (query, category, video in the player).
 */
module Education {
  import opened Optional
  import opened Text
  import opened Lists
  import opened LanguageContext

  datatype Title = Title(en: string, hi: string)

  datatype Video = Video(id: nat, youtubeId: string, title: Title, category: string, views: nat, rating: real)

  /** `video.title[language]`. */
  function TitleIn(video: Video, language: Language): (s: string)
    ensures language == En ==> s == video.title.en
    ensures language == Hi ==> s == video.title.hi
  {
    match language
    case En => video.title.en
    case Hi => video.title.hi
  }

  /** `videos`, the library in the order the grid shows it. */
  const Videos: seq<Video> := [
    Video(1, "T6Se7kOJdSQ",
      Title("Understanding Osteoporosis - Bone Health Explained", "ऑस्टियोपोरोसिस को समझना - हड्डियों का स्वास्थ्य"),
      "Understanding BMD", 125000, 4.9),
    Video(2, "4J9G8eWu5Is",
      Title("Calcium Rich Foods for Strong Bones", "मजबूत हड्डियों के लिए कैल्शियम युक्त आहार"),
      "Nutrition", 89000, 4.8),
    Video(3, "aUaInS6HIGo",
      Title("Best Exercises for Bone Health - Senior Friendly", "हड्डियों के स्वास्थ्य के लिए सर्वोत्तम व्यायाम"),
      "Exercise", 152000, 4.9),
    Video(4, "uGEL8lmZFXc",
      Title("Physiotherapy for Bone Recovery", "हड्डी की रिकवरी के लिए फिजियोथेरेपी"),
      "Rehabilitation", 67000, 4.7),
    Video(5, "PFkDJI64zAk",
      Title("Fall Prevention Tips for Elderly", "बुजुर्गों के लिए गिरने से बचाव के टिप्स"),
      "Fall Prevention", 93000, 4.8),
    Video(6, "RLHdkV8WWQI",
      Title("Vitamin D and Bone Health Connection", "विटामिन डी और हड्डियों के स्वास्थ्य का संबंध"),
      "Nutrition", 110000, 4.9),
    Video(7, "5N1JxDpT-wk",
      Title("Yoga Exercises for Strong Bones", "मजबूत हड्डियों के लिए योग व्यायाम"),
      "Exercise", 78000, 4.6),
    Video(8, "bSvovGB_O44",
      Title("How to Read Your DEXA Scan Report", "अपनी DEXA स्कैन रिपोर्ट कैसे पढ़ें"),
      "Understanding BMD", 145000, 4.9),
    Video(9, "GIBXMIoGXWU",
      Title("Post Surgery Rehabilitation Exercises", "सर्जरी के बाद पुनर्वास व्यायाम"),
      "Rehabilitation", 52000, 4.7)]

  // ---------------------------------------------------------------------------
  // View counts

  /** `formatViews`: below a thousand the plain numeral; from a thousand on the count in
    * thousands with one decimal and a `k`, rounded to the nearest tenth (halves up). */
  function FormatViews(views: nat): (s: string)
    ensures views < 1000 ==> AllDigits(s)
    ensures views >= 1000 ==> |s| >= 4 && s[|s| - 1] == 'k' && s[|s| - 3] == '.'
  {
    if views >= 1000 then
      var tenths := (views + 50) / 100;
      NatToString(tenths / 10) + "." + [DigitChar(tenths % 10)] + "k"
    else
      NatToString(views)
  }

  /** Below a thousand, the text reads back as the count itself. */
  lemma FormatViewsSmall(views: nat)
    requires views < 1000
    ensures AllDigits(FormatViews(views)) && ParseNat(FormatViews(views)) == views
  {
    ParseNatToString(views);
  }

  /** From a thousand on, the text is a whole number of thousands, a point, one digit and
    * `k`, and the tenths it reads back as are the nearest tenth to `views / 1000`. */
  lemma FormatViewsThousands(views: nat)
    requires views >= 1000
    ensures var s := FormatViews(views);
      && AllDigits(s[..|s| - 3]) && IsAsciiDigit(s[|s| - 2])
      && var tenths := 10 * ParseNat(s[..|s| - 3]) + DigitValue(s[|s| - 2]);
         -50 < 100 * tenths - views <= 50
  {
    var t := (views + 50) / 100;
    var whole, digit := NatToString(t / 10), DigitChar(t % 10);
    var s := FormatViews(views);
    assert s == whole + "." + [digit] + "k";
    assert s[..|s| - 3] == whole;
    assert s[|s| - 2] == digit;
    ParseNatToString(t / 10);
    DigitValueOfChar(t % 10);
  }

  /** The count of the first video, written out. */
  lemma FormatViewsExample()
    ensures FormatViews(125000) == "125.0k"
  {
    assert (125000 + 50) / 100 == 1250 && 1250 / 10 == 125 && 1250 % 10 == 0;
    assert FormatViews(125000) == NatToString(125) + "." + [DigitChar(0)] + "k";
    assert NatToString(125) == "125";
  }

  /** The two sides of the threshold, written out. */
  lemma FormatViewsThreshold()
    ensures FormatViews(999) == "999"
    ensures FormatViews(1000) == "1.0k"
  {
    assert NatToString(99) == "99";
  }

  // ---------------------------------------------------------------------------
  // Category buttons and badges

  /** The category keys, in button order. */
  const CategoryKeys: seq<string> := ["All", "Nutrition", "Exercise", "Rehabilitation", "Fall Prevention", "Understanding BMD"]

  /** The translation key of each button's label, in the same order. */
  const LabelKeys: seq<string> := [
    "category.all", "category.nutrition", "category.exercise", "category.rehabilitation",
    "category.fallPrevention", "category.understandingBMD"]

  /** `categories`, built with the `t` the page takes from `useLanguage()` (the context's
    * `ContextValue.T`). */
  function Categories(t: string -> string): (cs: seq<CategoryButton>)
    ensures |cs| == 6
    ensures forall i :: 0 <= i < |cs| ==> cs[i].key == CategoryKeys[i] && cs[i].caption == t(LabelKeys[i])
  {
    Buttons(CategoryKeys, LabelKeys, t)
  }

  /** The text of a card's category badge: `categories.find(...)?.label`. */
  function BadgeLabel(t: string -> string, video: Video): (caption: Option<string>)
    ensures caption.Some? <==> video.category in CategoryKeys
  {
    LabelOf(Categories(t), video.category)
  }

  /** The category of each video, as an index into the buttons. */
  lemma VideoCategories()
    ensures forall i :: 0 <= i < |Videos| ==> 1 <= CategoryIndex(i) < |CategoryKeys| && Videos[i].category == CategoryKeys[CategoryIndex(i)]
  {
  }

  /** Which button (never "All") names the category of the video at position `i`. */
  function CategoryIndex(i: nat): nat
  {
    if i == 1 || i == 5 then 1
    else if i == 2 || i == 6 then 2
    else if i == 3 || i == 8 then 3
    else if i == 4 then 4
    else 5
  }

  /** Every video's category is one of the button keys other than "All", so every badge
    * has a label: `t` of that category's label key. */
  lemma EveryBadgeLabelled(t: string -> string, i: nat)
    requires i < |Videos|
    ensures Videos[i].category in CategoryKeys
    ensures exists k :: 1 <= k < |CategoryKeys| && CategoryKeys[k] == Videos[i].category
                        && BadgeLabel(t, Videos[i]) == Some(t(LabelKeys[k]))
  {
    VideoCategories();
    assert Distinct(CategoryKeys);
    LabelOfOwnKey(CategoryKeys, LabelKeys, t, CategoryIndex(i));
  }

  // ---------------------------------------------------------------------------
  // Filtering

  /** The callback of `filteredVideos`: the lower-cased title in the current language
    * contains the lower-cased query, and the category is `"All"` or the video's own. */
  predicate Matches(video: Video, language: Language, query: string, category: string)
  {
    && Contains(ToLower(TitleIn(video, language)), ToLower(query))
    && (category == "All" || video.category == category)
  }

  /** `filteredVideos` over a list of videos. */
  function FilterVideos(videos: seq<Video>, language: Language, query: string, category: string): (r: seq<Video>)
    ensures |r| <= |videos|
    ensures forall v :: v in r ==> v in videos && Matches(v, language, query, category)
  {
    Filter(videos, v => Matches(v, language, query, category))
  }

  /** The grid keeps exactly the videos that match, at their original positions' order. */
  lemma FilteredVideosOrdered(videos: seq<Video>, language: Language, query: string, category: string)
    ensures var keep := v => Matches(v, language, query, category);
      && SubsequenceAt(FilterVideos(videos, language, query, category), videos, KeptIndices(videos, keep))
      && forall i :: 0 <= i < |videos| ==> (Matches(videos[i], language, query, category) <==> i in KeptIndices(videos, keep))
  {
    FilterIsSubsequence(videos, v => Matches(v, language, query, category));
  }

  /** A video is shown iff its lower-cased title contains the lower-cased query and the
    * category is `"All"` or its own. */
  lemma FilteredVideosKeep(videos: seq<Video>, language: Language, query: string, category: string, v: Video)
    ensures (v in FilterVideos(videos, language, query, category))
        <==> (v in videos && Contains(ToLower(TitleIn(v, language)), ToLower(query))
              && (category == "All" || v.category == category))
  {
    FilterMembership(videos, u => Matches(u, language, query, category), v);
  }

  /** Filtering the shown videos again with the same query and category changes nothing. */
  lemma FilterVideosIdempotent(videos: seq<Video>, language: Language, query: string, category: string)
    ensures FilterVideos(FilterVideos(videos, language, query, category), language, query, category)
      == FilterVideos(videos, language, query, category)
  {
    FilterIdempotent(videos, v => Matches(v, language, query, category));
  }

  /** An empty query with category `"All"` keeps every video, in order. */
  lemma {:induction false} NoFilterKeepsAll(videos: seq<Video>, language: Language)
    ensures FilterVideos(videos, language, "", "All") == videos
  {
    forall i | 0 <= i < |videos|
      ensures Matches(videos[i], language, "", "All")
    {
      ContainsEmpty(ToLower(TitleIn(videos[i], language)));
    }
    FilterKeepsAll(videos, v => Matches(v, language, "", "All"));
  }

  /** With no filter the grid shows all nine videos of the library. */
  lemma NoFilterShowsAll(language: Language)
    ensures FilterVideos(Videos, language, "", "All") == Videos
    ensures |FilterVideos(Videos, language, "", "All")| == 9
  {
    NoFilterKeepsAll(Videos, language);
  }

  // ---------------------------------------------------------------------------
  // Page state

  /** The state of the education page. */
  class EducationPage {
    var searchQuery: string
    var selectedCategory: string
    var selectedVideo: Option<Video>

    constructor ()
      ensures searchQuery == "" && selectedCategory == "All" && selectedVideo == None
    {
      searchQuery := "";
      selectedCategory := "All";
      selectedVideo := None;
    }

    /** The videos the grid shows in the given language. */
    function FilteredVideos(language: Language): (r: seq<Video>)
      reads this
      ensures r == FilterVideos(Videos, language, searchQuery, selectedCategory)
    {
      FilterVideos(Videos, language, searchQuery, selectedCategory)
    }

    /** Typing in the search box. */
    method SetSearchQuery(query: string)
      modifies this`searchQuery
      ensures searchQuery == query
    {
      searchQuery := query;
    }

    /** Clicking a category button. */
    method SelectCategory(option: CategoryButton)
      modifies this`selectedCategory
      ensures selectedCategory == option.key
    {
      selectedCategory := option.key;
    }

    /** Clicking a card opens the player on that video. */
    method SelectVideo(video: Video)
      modifies this`selectedVideo
      ensures selectedVideo == Some(video)
    {
      selectedVideo := Some(video);
    }

    /** Closing the player dialog. */
    method CloseVideo()
      modifies this`selectedVideo
      ensures selectedVideo == None
    {
      selectedVideo := None;
    }

    /** "Clear filters": the query becomes empty and the category `"All"`, so every video
      * is shown again in either language. */
    method ClearFilters()
      modifies this`searchQuery, this`selectedCategory
      ensures searchQuery == "" && selectedCategory == "All"
      ensures forall language :: FilteredVideos(language) == Videos
    {
      searchQuery := "";
      selectedCategory := "All";
      forall language
        ensures FilterVideos(Videos, language, "", "All") == Videos
      {
        NoFilterKeepsAll(Videos, language);
      }
    }
  }
}
