/** The top-level view choice of the page. */
module Home {
  import opened Wrappers
  import opened MockApi
  import opened Storage

  /** The three things the page can show. */
  datatype View = ErrorView | LoadingView | GridView(files: seq<Tile>, timestamp: string)

  /** The query's data has a `files` attribute. */
  predicate HasFiles(data: Option<Document>)
  {
    data.Some? && DocHasFiles(data.value)
  }

  /**
   * The view for the query's current `data` and `isLoading`. Missing data or
   * missing files is checked first, so the spinner can only appear when data
   * with files is already there.
   */
  function Render(data: Option<Document>, isLoading: bool): (v: View)
    ensures v.ErrorView? <==> !HasFiles(data)
    ensures v.LoadingView? <==> HasFiles(data) && isLoading
    ensures v.GridView? <==> HasFiles(data) && !isLoading
    ensures v.GridView? ==> v.files == data.value.files.value && v.timestamp == data.value.timestamp
  {
    if !HasFiles(data) then ErrorView
    else if isLoading then LoadingView
    else GridView(FilesOrEmpty(data.value), data.value.timestamp)
  }

  /** The query's data after its loader ran: a thrown exception leaves it undefined. */
  function DataOf(r: LoadResult): Option<Document>
  {
    if r.Loaded? then Some(r.doc) else None
  }

  /**
   * A reloaded document mounts the grid exactly when the page, with nothing
   * loading, renders the grid for it.
   */
  lemma ReloadMountsIffGridShown(doc: Document)
    ensures DocHasFiles(doc) <==> Render(Some(doc), false).GridView?
  {
  }

  /** Fresh start: an empty store is seeded and the grid shows the five seed tiles in order. */
  lemma FreshStartShowsSeed(v: Stored, loadTime: string)
    requires IsFalsy(v)
    ensures var seed := MockApiResponse(loadTime);
      && StoredAfterLoad(v, seed) == Json(Serialize(seed))
      && Render(DataOf(LoadResultOf(v, seed)), false) == GridView(SeedFiles, loadTime)
  {
  }

  /** A corrupt store is not reseeded: the query fails and the error view is shown. */
  lemma CorruptStoreShowsError(seed: AppData, isLoading: bool)
    ensures Render(DataOf(LoadResultOf(Malformed, seed)), isLoading) == ErrorView
  {
  }
}
