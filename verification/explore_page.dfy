/**
 * The explore page's paging (src/pages/ExplorePage.tsx): pages are numbered
 * from 1, the next page is requested while the server reports more, and the
 * users shown are every loaded page's users in order.
 */
module ExplorePage {
  import opened Options
  import Seqs

  const FirstPage := 1

  /** The paging block of an explore response. */
  datatype Pagination = Pagination(page: int, totalPages: int)

  /** `getNextPageParam`: the following page while the current one is before the last. */
  function NextPage(p: Pagination): (r: Option<int>)
    ensures r.Some? <==> p.page < p.totalPages
    ensures r.Some? ==> r.value == p.page + 1 && r.value <= p.totalPages
  {
    if p.page < p.totalPages then Some(p.page + 1) else None
  }

  /** The pages requested from `page` on, when every response reports `totalPages`. */
  function Requested(page: int, totalPages: int): seq<int>
    decreases totalPages - page
  {
    match NextPage(Pagination(page, totalPages))
    case None => [page]
    case Some(next) => [page] + Requested(next, totalPages)
  }

  /** From `page` on, every page up to the last is requested once, in order, and none past it. */
  lemma {:induction false} RequestedPages(page: int, totalPages: int)
    ensures |Requested(page, totalPages)| == if page < totalPages then totalPages - page + 1 else 1
    ensures forall i :: 0 <= i < |Requested(page, totalPages)| ==> Requested(page, totalPages)[i] == page + i
    decreases totalPages - page
  {
    if page < totalPages {
      RequestedPages(page + 1, totalPages);
    }
  }

  /** Starting from the first page, pages 1 to `totalPages` are requested (page 1 alone when there are none). */
  lemma AllPagesRequested(totalPages: int)
    ensures |Requested(FirstPage, totalPages)| == if totalPages > 1 then totalPages else 1
    ensures forall i :: 0 <= i < |Requested(FirstPage, totalPages)| ==> Requested(FirstPage, totalPages)[i] == i + 1
  {
    RequestedPages(FirstPage, totalPages);
  }

  datatype ExploreUser = ExploreUser(id: string, username: string, fullName: string, isFollowing: bool)

  datatype ExplorePageData = ExplorePageData(data: seq<ExploreUser>, pagination: Pagination)

  function PageUsers(p: ExplorePageData): seq<ExploreUser> {
    p.data
  }

  /** The users shown: the loaded pages' users, in page order. */
  function Users(pages: seq<ExplorePageData>): (r: seq<ExploreUser>)
    ensures pages == [] ==> r == []
  {
    Seqs.FlatMap(pages, PageUsers)
  }

  /** Loading one more page appends its users after those already shown. */
  lemma LoadMore(pages: seq<ExplorePageData>, next: ExplorePageData)
    ensures Users(pages + [next]) == Users(pages) + next.data
  {
    Seqs.FlatMapSnoc(pages, next, PageUsers);
  }
}
