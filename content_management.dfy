/**
 * src/components/admin/ContentManagement.tsx: the moderation table's search box.
 *
 * The component filters a constant list of pages on every render; the filter is
 * modelled over any list, and the constant list is `PAGES`.
 */
module ContentManagement {
  import opened Js
  import Lists

  datatype ContentPage = ContentPage(id: int, title: string, author: string, created: string, words: int,
                                     status: string, reports: int)

  const PAGES: seq<ContentPage> := [
    ContentPage(1, "Мои заметки по проекту", "user1@example.com", "2024-01-15", 1250, "public", 0),
    ContentPage(2, "Список покупок", "user2@example.com", "2024-01-14", 45, "private", 0),
    ContentPage(3, "Подозрительный контент", "user3@example.com", "2024-01-13", 2340, "flagged", 3)
  ]

  /** A page matches when its title or its author contains the term, ignoring case. */
  predicate Matches(p: ContentPage, term: string)
  {
    ContainsIgnoringCase(p.title, term) || ContainsIgnoringCase(p.author, term)
  }

  /** `pages.filter(...)` with the search term. */
  function FilteredPages(pages: seq<ContentPage>, term: string): seq<ContentPage>
  {
    Lists.Filter(pages, p => Matches(p, term))
  }

  /**
   * The table shows, in their order, exactly the pages whose title or author contains
   * the term; an empty term shows every page, and filtering the shown pages again with
   * the same term shows them unchanged.
   */
  lemma FilteredPagesSpec(pages: seq<ContentPage>, term: string)
    ensures Lists.IsSubsequence(FilteredPages(pages, term), pages)
    ensures forall p :: p in FilteredPages(pages, term) <==>
      p in pages && (ContainsIgnoringCase(p.title, term) || ContainsIgnoringCase(p.author, term))
    ensures FilteredPages(pages, "") == pages
    ensures FilteredPages(FilteredPages(pages, term), term) == FilteredPages(pages, term)
  {
    Lists.FilterIsSubsequence(pages, p => Matches(p, term));
    forall p
      ensures p in FilteredPages(pages, term) <==> p in pages && Matches(p, term)
    {
      Lists.FilterMembership(pages, p => Matches(p, term), p);
    }
    forall i | 0 <= i < |pages|
      ensures Matches(pages[i], "")
    {
      ContainsIgnoringCaseSpec(pages[i].title, "");
    }
    Lists.FilterKeepsAll(pages, p => Matches(p, ""));
    Lists.FilterIdempotent(pages, p => Matches(p, term));
  }

  /** Typing the term in upper or lower case shows the same pages. */
  lemma SearchIgnoresTermCase(pages: seq<ContentPage>, term: string)
    ensures FilteredPages(pages, Lower(term)) == FilteredPages(pages, term)
  {
    forall i | 0 <= i < |pages|
      ensures Matches(pages[i], Lower(term)) == Matches(pages[i], term)
    {
      ContainsIgnoringCaseSpec(pages[i].title, term);
      ContainsIgnoringCaseSpec(pages[i].author, term);
    }
    Lists.FilterAgreeingTests(pages, p => Matches(p, Lower(term)), p => Matches(p, term));
  }
}
