/**
 * The search drawer (src/components/common/SearchPanel.tsx): when a query is
 * sent and with what text, when a click is saved to the search history, and
 * the history's delete-one and clear-all updates.
 */
module SearchPanel {
  import opened Options
  import Text
  import Seqs

  /** What the query effect does for the current input. */
  datatype QueryAction = ClearResults | Search(q: string)

  /** A blank query clears and hides the results; any other is searched for, trimmed. */
  function OnQuery(query: string): (r: QueryAction)
    ensures r.ClearResults? <==> Text.AllSpace(query)
    ensures r.Search? ==> r.q == Text.Trim(query) && r.q != ""
  {
    var q := Text.Trim(query);
    if q == "" then ClearResults else Search(q)
  }

  /** The sent query is already trimmed, and inputs differing only in surrounding space send the same query. */
  lemma SearchQueryTrimmed(query: string)
    requires OnQuery(query).Search?
    ensures OnQuery(OnQuery(query).q) == OnQuery(query)
  {
    Text.TrimIdempotent(query);
  }

  datatype SearchUser = SearchUser(id: string, username: string, fullName: string, profilePicture: Option<string>)

  datatype ResultsView = ResultsView(results: seq<SearchUser>, showResults: bool)

  /** The results after the query effect and, for a search, its response (`data || []`; a failure changes nothing). */
  function Results(view: ResultsView, query: string, response: Result<Option<seq<SearchUser>>, string>): (r: ResultsView)
    ensures OnQuery(query).ClearResults? ==> r == ResultsView([], false)
    ensures OnQuery(query).Search? && response.Err? ==> r == view
    ensures OnQuery(query).Search? && response.Ok? ==> r == ResultsView(response.value.GetOr([]), true)
  {
    match OnQuery(query)
    case ClearResults => ResultsView([], false)
    case Search(_) => if response.Err? then view else ResultsView(response.value.GetOr([]), true)
  }

  /**
   * Results are shown exactly for a non-blank query that got an answer, and
   * then they do not depend on what was shown before; only a failed search
   * leaves the previous view.
   */
  lemma ResultsFollowTheAnswer(view: ResultsView, other: ResultsView, query: string, data: Option<seq<SearchUser>>)
    ensures Results(view, query, Ok(data)).showResults <==> !Text.AllSpace(query)
    ensures Results(view, query, Ok(data)) == Results(other, query, Ok(data))
    ensures !Text.AllSpace(query) ==> Results(view, query, Ok(data)).results == data.GetOr([])
  {
  }

  /** A history entry saved on a result click: the clicked user and the trimmed query. */
  datatype HistorySave = HistorySave(searchedUserId: string, searchQuery: string)

  datatype Click = Click(save: Option<HistorySave>, navigateTo: string)

  /**
   * `handleUserClick`: the history is saved only for a user with an id and a
   * non-blank query; the drawer navigates to the user whether or not a save
   * was made or succeeded.
   */
  function UserClick(userId: string, query: string): (r: Click)
    ensures r.save.Some? <==> userId != "" && !Text.AllSpace(query)
    ensures r.save.Some? ==> r.save.value == HistorySave(userId, Text.Trim(query))
    ensures r.navigateTo == "/user/" + userId
  {
    var q := Text.Trim(query);
    Click(if userId != "" && q != "" then Some(HistorySave(userId, q)) else None, "/user/" + userId)
  }

  /** A saved query is exactly the one a search for the same input sent. */
  lemma SavedQueryIsSearchedQuery(userId: string, query: string)
    requires UserClick(userId, query).save.Some?
    ensures OnQuery(query) == Search(UserClick(userId, query).save.value.searchQuery)
  {
  }

  /** A history entry; the searched user may be missing or lack an id. */
  datatype HistoryItem = HistoryItem(id: string, searchQuery: string, searchedUserId: Option<string>)

  /** `handleHistoryClick`: the path navigated to, none when the entry has no user id. */
  function HistoryClick(item: HistoryItem): (r: Option<string>)
    ensures r.Some? <==> IsTruthy(item.searchedUserId)
    ensures r.Some? ==> r.value == "/user/" + item.searchedUserId.value
  {
    if IsTruthy(item.searchedUserId) then Some("/user/" + item.searchedUserId.value) else None
  }

  /** A history entry saved from a result click leads back to the clicked user's page. */
  lemma HistoryLeadsBack(userId: string, query: string, itemId: string)
    requires UserClick(userId, query).save.Some?
    ensures var save := UserClick(userId, query).save.value;
      HistoryClick(HistoryItem(itemId, save.searchQuery, Some(save.searchedUserId))) == Some(UserClick(userId, query).navigateTo)
  {
  }

  function OtherItem(id: string): HistoryItem -> bool {
    (h: HistoryItem) => h.id != id
  }

  /** `handleDeleteOne`: after a successful request only the entries with that id are gone. */
  function DeleteOne(history: seq<HistoryItem>, id: string, succeeded: bool): (r: seq<HistoryItem>)
    ensures !succeeded ==> r == history
    ensures succeeded ==> forall h :: h in r <==> h in history && h.id != id
    ensures succeeded ==> |r| == Seqs.Count(history, OtherItem(id))
  {
    Seqs.FilterCount(history, OtherItem(id));
    if succeeded then Seqs.Filter(history, OtherItem(id)) else history
  }

  /** Deleting keeps the remaining entries in order, and deleting the same id again changes nothing. */
  lemma DeleteOneKeepsOrder(history: seq<HistoryItem>, id: string)
    ensures Seqs.IsSubsequence(DeleteOne(history, id, true), history)
    ensures DeleteOne(DeleteOne(history, id, true), id, true) == DeleteOne(history, id, true)
  {
    Seqs.FilterIsSubsequence(history, OtherItem(id));
    Seqs.FilterIdempotent(history, OtherItem(id));
  }

  /** `handleClearAll`: after a successful request the history is empty. */
  function ClearAll(history: seq<HistoryItem>, succeeded: bool): (r: seq<HistoryItem>)
    ensures succeeded ==> r == []
    ensures !succeeded ==> r == history
  {
    if succeeded then [] else history
  }

  /** After a successful clear, deleting any entry, whether or not its request succeeds, leaves the history empty. */
  lemma ClearAllThenDeleteOne(history: seq<HistoryItem>, id: string, succeeded: bool)
    ensures DeleteOne(ClearAll(history, true), id, succeeded) == []
  {
  }
}
