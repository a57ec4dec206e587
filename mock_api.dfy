/**
 * The data model of the grid (`AppFile`, `AppData`) and the seed payload
 * written to storage on first load.
 */
module MockApi {

  /** One tile of the grid. `kind` is the source's `type` attribute. */
  datatype Tile = Tile(kind: string, title: string, position: int, imageUrl: string, category: string)

  /** A snapshot: the ordered tiles and the instant it was written (ISO-8601 text). */
  datatype AppData = AppData(files: seq<Tile>, timestamp: string)

  /** No tile occurs twice. */
  predicate Distinct(files: seq<Tile>)
  {
    forall i, j :: 0 <= i < j < |files| ==> files[i] != files[j]
  }

  /** `imageUrl` identifies a tile: it is the render key of the grid. */
  predicate UniqueImageUrls(files: seq<Tile>)
  {
    forall i, j :: 0 <= i < j < |files| ==> files[i].imageUrl != files[j].imageUrl
  }

  predicate UniqueKinds(files: seq<Tile>)
  {
    forall i, j :: 0 <= i < j < |files| ==> files[i].kind != files[j].kind
  }

  /** Tiles with different render keys are different tiles. */
  lemma UniqueImageUrlsImplyDistinct(files: seq<Tile>)
    requires UniqueImageUrls(files)
    ensures Distinct(files)
  {
  }

  const BankDraft := Tile("bank-draft", "Bank Draft", 0,
    "https://media2.giphy.com/media/" + "cfuL5gqFDreXxkWQ4o" +
    "/giphy.gif?cid=570ad1c2src7yp645n2cgjrpg6w4th0h8pent66ipnbgj5am&ep=v1_gifs_search&rid=giphy.gif&ct=g",
    "Finance")
  const BillOfLading := Tile("bill-of-lading", "Bill of Lading", 1,
    "https://media0.giphy.com/media/" + "2x0VePimPaFJDpGZ7H" +
    "/giphy.gif?cid=570ad1c2src7yp645n2cgjrpg6w4th0h8pent66ipnbgj5am&ep=v1_gifs_search&rid=giphy.gif&ct=g",
    "Shipping")
  const Invoice := Tile("invoice", "Invoice", 2,
    "https://media1.giphy.com/media/" + "1ViLp0GBYhTcA" +
    "/giphy.gif?cid=570ad1c2src7yp645n2cgjrpg6w4th0h8pent66ipnbgj5am&ep=v1_gifs_search&rid=giphy.gif&ct=g",
    "Finance")
  const BankDraft2 := Tile("bank-draft-2", "Bank Draft 2", 3,
    "https://media0.giphy.com/media/" + "6VoDJzfRjJNbG" +
    "/giphy.gif?cid=570ad1c2src7yp645n2cgjrpg6w4th0h8pent66ipnbgj5am&ep=v1_gifs_search&rid=giphy.gif&ct=g",
    "Finance")
  const BillOfLading2 := Tile("bill-of-lading-2", "Bill of Lading 2", 4,
    "https://media1.giphy.com/media/" + "Rh5H3qMsVSsMrThuN1" +
    "/giphy.gif?cid=570ad1c2pxmxygvhx1smr8htahhmvutzu7uzy0jh11vb82yu&ep=v1_gifs_search&rid=giphy.gif&ct=g",
    "Shipping")

  /** The five seed tiles in their seeded order. */
  const SeedFiles := [BankDraft, BillOfLading, Invoice, BankDraft2, BillOfLading2]

  /**
   * The seed URLs differ at the digit of the media server (index 13) or, for
   * two URLs on the same server, at the first character of the media id
   * (index 31). Each URL is written as host and path, media id, and query.
   */
  lemma SeedImageUrlsDiffer()
    ensures UniqueImageUrls(SeedFiles)
  {
    assert BankDraft.imageUrl[13] == '2';
    assert BillOfLading.imageUrl[13] == '0' && BillOfLading.imageUrl[31] == '2';
    assert Invoice.imageUrl[13] == '1' && Invoice.imageUrl[31] == '1';
    assert BankDraft2.imageUrl[13] == '0' && BankDraft2.imageUrl[31] == '6';
    assert BillOfLading2.imageUrl[13] == '1' && BillOfLading2.imageUrl[31] == 'R';
  }

  /**
   * The seed payload. Its timestamp is taken once, when the module is
   * loaded, so the load instant is a parameter here.
   */
  function MockApiResponse(loadTime: string): (r: AppData)
    ensures |r.files| == 5
    ensures forall i :: 0 <= i < |r.files| ==> r.files[i].position == i
    ensures UniqueKinds(r.files)
    ensures UniqueImageUrls(r.files)
    ensures Distinct(r.files)
    ensures r.timestamp == loadTime
  {
    SeedImageUrlsDiffer();
    UniqueImageUrlsImplyDistinct(SeedFiles);
    AppData(SeedFiles, loadTime)
  }
}
