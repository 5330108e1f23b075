/**
 * The watchlist page (src/app/watchlist/page.tsx): search, the filter
 * buttons, the date ordering, the add guard and the status bar width.
 */
module WatchlistPage {
  import opened Wrappers
  import opened Schema
  import opened Seqs
  import opened Sorting
  import opened Text

  /** The search box: case-insensitive substring match on the title (ASCII case only). */
  predicate MatchesSearch(item: WatchlistItem, search: string) {
    Contains(Lower(item.title), Lower(search))
  }

  /** An empty search matches every item. */
  lemma EmptySearchMatchesAll(item: WatchlistItem)
    ensures MatchesSearch(item, "")
  {
    assert Lower("") == "";
    assert StartsWith(Lower(item.title), "");
  }

  /** A match is an occurrence of the lower-cased search in the lower-cased title. */
  lemma SearchFindsOccurrence(item: WatchlistItem, search: string)
    ensures MatchesSearch(item, search) ==> exists k :: OccursAt(Lower(item.title), Lower(search), k)
    ensures (exists k :: OccursAt(Lower(item.title), Lower(search), k)) ==> MatchesSearch(item, search)
  {
    ContainsIffOccurs(Lower(item.title), Lower(search));
  }

  /**
   * The filter buttons: `all` keeps everything, `movie` and `show` select a
   * type, `watching` and `finished` a status, and any other value nothing.
   */
  predicate MatchesFilter(item: WatchlistItem, filter: string) {
    if filter == "movie" || filter == "show" then MediaTypeName(item.mediaType) == filter
    else if filter == "watching" || filter == "finished" then WatchStatusName(item.status) == filter
    else filter == "all"
  }

  /** There is no button for items not started, and such a filter value would keep nothing. */
  lemma OtherFilterKeepsNothing(item: WatchlistItem, filter: string)
    requires filter !in ["all", "movie", "show", "watching", "finished"]
    ensures !MatchesFilter(item, filter)
  {
  }

  /** `filter` selects exactly the items of that type or status. */
  lemma FilterSelectsTypeOrStatus(item: WatchlistItem, filter: string)
    ensures filter == "movie" ==> (MatchesFilter(item, filter) <==> item.mediaType == Movie)
    ensures filter == "show" ==> (MatchesFilter(item, filter) <==> item.mediaType == Show)
    ensures filter == "watching" ==> (MatchesFilter(item, filter) <==> item.status == Watching)
    ensures filter == "finished" ==> (MatchesFilter(item, filter) <==> item.status == Finished)
    ensures filter == "all" ==> MatchesFilter(item, filter)
  {
  }

  datatype SortOrder = Newest | Oldest

  /** `dateB - dateA` for newest first, `dateA - dateB` for oldest first, as a sort key. */
  function CreatedKey(order: SortOrder): WatchlistItem -> Key {
    match order
    case Newest => (w: WatchlistItem) => Key(-w.createdAt, 0)
    case Oldest => (w: WatchlistItem) => Key(w.createdAt, 0)
  }

  function Shown(search: string, filter: string): WatchlistItem -> bool {
    (w: WatchlistItem) => MatchesSearch(w, search) && MatchesFilter(w, filter)
  }

  /** filteredItems: the matching items, ordered by creation date in the chosen direction. */
  function VisibleItems(items: seq<WatchlistItem>, search: string, filter: string, order: SortOrder): (r: seq<WatchlistItem>)
    ensures multiset(r) == multiset(Filter(items, Shown(search, filter)))
    ensures forall i :: 0 <= i < |r| ==> MatchesSearch(r[i], search) && MatchesFilter(r[i], filter)
    ensures order == Newest ==> forall i, j :: 0 <= i < j < |r| ==> r[i].createdAt >= r[j].createdAt
    ensures order == Oldest ==> forall i, j :: 0 <= i < j < |r| ==> r[i].createdAt <= r[j].createdAt
  {
    var kept := Filter(items, Shown(search, filter));
    var r := SortBy(kept, CreatedKey(order));
    SortBySorted(kept, CreatedKey(order));
    PermutationKeepsAll(kept, r, Shown(search, filter));
    if order == Newest then
      DescendingStamps(r, CreatedKey(order), (w: WatchlistItem) => w.createdAt);
      r
    else
      AscendingStamps(r, CreatedKey(order), (w: WatchlistItem) => w.createdAt);
      r
  }

  /** addItem: a blank title sends nothing; any other sends `{ title, type }` untrimmed. */
  function AddItemPayload(newTitle: string, newType: MediaType): (r: Option<(string, MediaType)>)
    ensures r.None? <==> AllSpace(newTitle)
    ensures r.Some? ==> r.value == (newTitle, newType)
  {
    BlankIffAllSpace(newTitle);
    if IsBlank(newTitle) then None else Some((newTitle, newType))
  }

  /** The progress bar width, in percent, for an item's status. */
  function StatusWidth(status: WatchStatus): (r: int)
    ensures r == 100 <==> status == Finished
    ensures r == 0 <==> status == NotStarted
    ensures 0 <= r <= 100
  {
    match status
    case Finished => 100
    case Watching => 50
    case NotStarted => 0
  }

  /** The bar only grows along not started, watching, finished. */
  lemma StatusWidthOrdered()
    ensures StatusWidth(NotStarted) < StatusWidth(Watching) < StatusWidth(Finished)
  {
  }
}
