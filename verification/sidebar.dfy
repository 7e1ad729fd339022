/**
 * The navigation sidebar (src/components/common/Sidebar.tsx): its menu, the
 * active-item highlight, and what clicking an item does.
 */
module Sidebar {
  import opened Options
  import Text

  /** `isActive`: never for an empty href, only an exact match for "/", a plain string prefix otherwise. */
  function IsActive(href: string, pathname: string): (r: bool)
    ensures href == "" ==> !r
    ensures href == "/" ==> (r <==> pathname == "/")
    ensures href != "" && href != "/" ==> (r <==> Text.StartsWith(pathname, href))
  {
    if href == "" then false else if href == "/" then pathname == "/" else Text.StartsWith(pathname, href)
  }

  /** The prefix match is not a path-segment match: one user's profile item lights up on another's. */
  lemma PrefixNotSegment()
    ensures IsActive("/user/1", "/user/12")
    ensures IsActive("/chat", "/chats")
  {
  }

  /** An item's on-click behaviour when it has no href. */
  datatype Action = OpenSearch | OpenNotifications | OpenCreatePost

  datatype MenuItem = MenuItem(id: string, href: string, action: Option<Action>)

  /** The profile item's href: the signed-in user's page, "" while none is loaded. */
  function ProfileHref(currentUserId: Option<string>): (r: string)
    ensures currentUserId.None? <==> r == ""
    ensures currentUserId.Some? ==> r == "/user/" + currentUserId.value
  {
    if currentUserId.Some? then "/user/" + currentUserId.value else ""
  }

  function MenuItems(currentUserId: Option<string>): (r: seq<MenuItem>)
    ensures |r| == 7
  {
    [ MenuItem("home", "/", None),
      MenuItem("search", "", Some(OpenSearch)),
      MenuItem("explore", "/explore", None),
      MenuItem("chat", "/chat", None),
      MenuItem("notification", "", Some(OpenNotifications)),
      MenuItem("create", "", Some(OpenCreatePost)),
      MenuItem("profile", ProfileHref(currentUserId), None) ]
  }

  /** Without a signed-in user no path highlights the profile item. */
  lemma SignedOutProfileNeverActive(pathname: string)
    ensures !IsActive(MenuItems(None)[6].href, pathname)
  {
  }

  /** Clicking an item: follow its href, or run its action, or nothing. */
  datatype ClickResult = Navigate(to: string) | Invoke(action: Action) | NoEffect

  /** An item with an href is a link; one without runs its action, if any, whether or not search is open. */
  function Click(item: MenuItem, searchOpen: bool): (r: ClickResult)
    ensures item.href != "" ==> r == Navigate(item.href)
    ensures item.href == "" && item.action.Some? ==> r == Invoke(item.action.value)
    ensures item.href == "" && item.action.None? ==> r == NoEffect
  {
    if item.href != "" then Navigate(item.href)
    else
      var isPanelItem := item.id == "search" || item.id == "notification";
      if isPanelItem && searchOpen then (if item.action.Some? then Invoke(item.action.value) else NoEffect)
      else if item.action.Some? then Invoke(item.action.value)
      else NoEffect
  }

  /** The panel special case changes nothing: a click has the same effect with the search panel open or closed. */
  lemma ClickIgnoresSearchOpen(item: MenuItem)
    ensures Click(item, true) == Click(item, false)
  {
  }

  /** In the menu the panel and create items act, the others navigate; a signed-out profile item does nothing. */
  lemma MenuClicks(currentUserId: Option<string>, searchOpen: bool)
    ensures var items := MenuItems(currentUserId);
      && Click(items[1], searchOpen) == Invoke(OpenSearch)
      && Click(items[4], searchOpen) == Invoke(OpenNotifications)
      && Click(items[5], searchOpen) == Invoke(OpenCreatePost)
      && Click(items[0], searchOpen) == Navigate("/")
      && (currentUserId.None? ==> Click(items[6], searchOpen) == NoEffect)
  {
  }
}
