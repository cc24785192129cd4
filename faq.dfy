/**
 * The FAQ section (src/components/home/FAQ.tsx): a case-insensitive search
 * over each question and answer, combined with a category filter, and the
 * state of the search box, the category buttons and the one expanded item.
 */
module Faq {
  import opened Wrappers
  import opened JsArray
  import opened JsString

  /** One question; its icon is left out. */
  datatype FaqEntry = FaqEntry(id: int, question: string, answer: string, category: string)

  /** A category button: the source's `id` and `label`; its icon is left out. */
  datatype FaqCategory = FaqCategory(id: string, name: string)

  /** The category id that matches every entry. */
  const AllCategories: string := "all"

  /** The test inside `filteredFaqs`: the lower-cased query occurs in the question or the answer, and the category fits. */
  predicate Shows(faq: FaqEntry, query: string, category: string) {
    var q := ToLowerCase(query);
    (Includes(ToLowerCase(faq.question), q) || Includes(ToLowerCase(faq.answer), q))
    && (category == AllCategories || faq.category == category)
  }

  function ShowsTest(query: string, category: string): FaqEntry -> bool {
    (faq: FaqEntry) => Shows(faq, query, category)
  }

  /** `filteredFaqs`. */
  function FilteredFaqs(faqs: seq<FaqEntry>, query: string, category: string): seq<FaqEntry> {
    Filter(faqs, ShowsTest(query, category))
  }

  /**
   * The shown entries are those that match the search and the category, in
   * list order, each as often as listed.
   */
  lemma FilteredFaqsSpec(faqs: seq<FaqEntry>, query: string, category: string)
    ensures IsSubsequence(FilteredFaqs(faqs, query, category), faqs)
    ensures forall faq :: faq in FilteredFaqs(faqs, query, category) <==>
      faq in faqs
      && (Includes(ToLowerCase(faq.question), ToLowerCase(query)) || Includes(ToLowerCase(faq.answer), ToLowerCase(query)))
      && (category == "all" || faq.category == category)
  {
    FilterSpec(faqs, ShowsTest(query, category));
  }

  /** An empty query matches every entry, so with "all" the whole list is shown. */
  lemma EmptyQueryShowsAll(faqs: seq<FaqEntry>)
    ensures FilteredFaqs(faqs, "", AllCategories) == faqs
  {
    forall i | 0 <= i < |faqs|
      ensures ShowsTest("", AllCategories)(faqs[i])
    {
      IncludesEmpty(ToLowerCase(faqs[i].question));
    }
    FilterAll(faqs, ShowsTest("", AllCategories));
  }

  /** The search ignores the case of ASCII letters in the query. */
  lemma SearchIgnoresCase(faqs: seq<FaqEntry>, query: string, other: string, category: string)
    requires ToLowerCase(query) == ToLowerCase(other)
    ensures FilteredFaqs(faqs, query, category) == FilteredFaqs(faqs, other, category)
  {
    FilterCongruent(faqs, ShowsTest(query, category), ShowsTest(other, category));
  }

  /** Choosing a category narrows the "all" result to that category, keeping its order. */
  lemma CategoryNarrowsAll(faqs: seq<FaqEntry>, query: string, category: string)
    requires category != AllCategories
    ensures FilteredFaqs(faqs, query, category) ==
      Filter(FilteredFaqs(faqs, query, AllCategories), (faq: FaqEntry) => faq.category == category)
  {
    FilterFusion(faqs, ShowsTest(query, AllCategories), (faq: FaqEntry) => faq.category == category,
                 ShowsTest(query, category));
  }

  /**
   * Typing on never adds an entry: if the new query contains the old one,
   * the new result is the old result narrowed by the new query.
   */
  lemma LongerQueryNarrows(faqs: seq<FaqEntry>, query: string, shorter: string, category: string)
    requires Includes(query, shorter)
    ensures FilteredFaqs(faqs, query, category) ==
      Filter(FilteredFaqs(faqs, shorter, category), ShowsTest(query, category))
    ensures IsSubsequence(FilteredFaqs(faqs, query, category), FilteredFaqs(faqs, shorter, category))
  {
    var long, short := ShowsTest(query, category), ShowsTest(shorter, category);
    IncludesToLowerCase(query, shorter);
    forall faq: FaqEntry
      ensures long(faq) == (short(faq) && long(faq))
    {
      var q, s := ToLowerCase(query), ToLowerCase(shorter);
      if Includes(ToLowerCase(faq.question), q) {
        IncludesTransitive(ToLowerCase(faq.question), q, s);
      }
      if Includes(ToLowerCase(faq.answer), q) {
        IncludesTransitive(ToLowerCase(faq.answer), q, s);
      }
    }
    FilterFusion(faqs, short, long, long);
    FilterIsSubsequence(FilteredFaqs(faqs, shorter, category), long);
  }

  /** An entry is expanded when its id is `expandedId`. */
  predicate IsExpanded(expandedId: Option<int>, faq: FaqEntry) {
    expandedId == Some(faq.id)
  }

  /** With distinct ids, at most one entry of a list is expanded. */
  lemma AtMostOneExpanded(faqs: seq<FaqEntry>, expandedId: Option<int>, i: int, j: int)
    requires forall a, b :: 0 <= a < b < |faqs| ==> faqs[a].id != faqs[b].id
    requires 0 <= i < |faqs| && 0 <= j < |faqs|
    requires IsExpanded(expandedId, faqs[i]) && IsExpanded(expandedId, faqs[j])
    ensures i == j
  {
  }

  /** What a click on an entry sets `expandedId` to: nothing if it was the expanded one, itself otherwise. */
  function ToggleExpanded(expandedId: Option<int>, id: int): (r: Option<int>)
    ensures r == None <==> expandedId == Some(id)
    ensures r.Some? ==> r == Some(id)
  {
    if expandedId == Some(id) then None else Some(id)
  }

  /** The `FAQ` component's state over a given list of entries. */
  class FaqState {
    const faqs: seq<FaqEntry>
    var searchQuery: string
    var selectedCategory: string
    var expandedId: Option<int>

    constructor(faqs: seq<FaqEntry>)
      ensures this.faqs == faqs
      ensures searchQuery == "" && selectedCategory == AllCategories && expandedId == None
    {
      this.faqs := faqs;
      searchQuery := "";
      selectedCategory := AllCategories;
      expandedId := None;
    }

    /** The entries on screen. */
    function Shown(): seq<FaqEntry>
      reads this
    {
      FilteredFaqs(faqs, searchQuery, selectedCategory)
    }

    /** The clear button is shown exactly while the query is non-empty (a truthy string). */
    predicate ShowsClearButton()
      reads this
    {
      searchQuery != ""
    }

    /** `handleSearch`: typing replaces the query and collapses the expanded entry. */
    method HandleSearch(value: string)
      modifies this
      ensures searchQuery == value && expandedId == None
      ensures selectedCategory == old(selectedCategory)
    {
      searchQuery := value;
      expandedId := None;
    }

    /** `clearSearch`: empties the query and keeps the category and the expanded entry; the focus call is left out. */
    method ClearSearch()
      modifies this
      ensures searchQuery == ""
      ensures selectedCategory == old(selectedCategory) && expandedId == old(expandedId)
      ensures !ShowsClearButton()
    {
      searchQuery := "";
    }

    /** A click on a category button. */
    method SelectCategory(id: string)
      modifies this
      ensures selectedCategory == id
      ensures searchQuery == old(searchQuery) && expandedId == old(expandedId)
    {
      selectedCategory := id;
    }

    /** A click on an entry. */
    method ToggleItem(id: int)
      modifies this
      ensures expandedId == ToggleExpanded(old(expandedId), id)
      ensures searchQuery == old(searchQuery) && selectedCategory == old(selectedCategory)
    {
      expandedId := if expandedId == Some(id) then None else Some(id);
    }
  }
}
