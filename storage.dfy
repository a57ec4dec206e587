/**
 * The one persisted value, kept under the key "appData", and the query's
 * loader that reads it or seeds it.
 */
module Storage {
  import opened Wrappers
  import opened MockApi

  /**
   * A parsed JSON value as far as the app inspects it: `null`, or an object
   * whose `files` may be missing.
   */
  datatype Document = NullDocument | Record(files: Option<seq<Tile>>, timestamp: string)

  /**
   * The text stored under the key, abstracted: nothing stored, the empty
   * string, the JSON text of a document, or text that is not JSON.
   */
  datatype Stored = Missing | EmptyText | Json(doc: Document) | Malformed

  /** The outcome of the loader: a document, or the exception `JSON.parse` throws. */
  datatype LoadResult = Loaded(doc: Document) | Threw

  /** The document `JSON.parse(JSON.stringify(data))` gives back. */
  function Serialize(data: AppData): Document
  {
    Record(Some(data.files), data.timestamp)
  }

  /** `!appData` for the string `getItem` returns: null and "" are falsy. */
  predicate IsFalsy(v: Stored)
  {
    v.Missing? || v.EmptyText?
  }

  /** The document has a `files` attribute. */
  predicate DocHasFiles(doc: Document)
  {
    doc.Record? && doc.files.Some?
  }

  /** `data?.files || []`: the files of a loaded document, or none. */
  function FilesOrEmpty(doc: Document): seq<Tile>
  {
    match doc
    case Record(Some(files), _) => files
    case _ => []
  }

  /** What the loader returns when the store holds `v`. */
  function LoadResultOf(v: Stored, seed: AppData): LoadResult
  {
    match v
    case Missing => Loaded(Serialize(seed))
    case EmptyText => Loaded(Serialize(seed))
    case Json(doc) => Loaded(doc)
    case Malformed => Threw
  }

  /** What the store holds after the loader ran on `v`: only a falsy value is replaced, by the seed. */
  function StoredAfterLoad(v: Stored, seed: AppData): Stored
  {
    if IsFalsy(v) then Json(Serialize(seed)) else v
  }

  /** A snapshot written to the store is read back unchanged. */
  lemma WriteThenLoad(data: AppData, seed: AppData)
    ensures LoadResultOf(Json(Serialize(data)), seed) == Loaded(Record(Some(data.files), data.timestamp))
    ensures StoredAfterLoad(Json(Serialize(data)), seed) == Json(Serialize(data))
  {
  }

  /**
   * Loading is idempotent: a second load writes nothing and returns what the
   * first returned; from an empty store both return the seed.
   */
  lemma LoadTwice(v: Stored, seed: AppData)
    ensures var v1 := StoredAfterLoad(v, seed);
      && StoredAfterLoad(v1, seed) == v1
      && LoadResultOf(v1, seed) == LoadResultOf(v, seed)
      && (IsFalsy(v) ==> LoadResultOf(v1, seed) == Loaded(Serialize(seed)))
  {
  }

  /** A value that is not JSON is not reseeded: the loader throws and the store keeps it. */
  lemma CorruptStoreThrows(seed: AppData)
    ensures LoadResultOf(Malformed, seed) == Threw
    ensures StoredAfterLoad(Malformed, seed) == Malformed
  {
  }

  /** The browser's local storage, narrowed to the one key the app uses. */
  class LocalStore {
    var value: Stored

    constructor (value: Stored)
      ensures this.value == value
    {
      this.value := value;
    }

    /** `localStorage.setItem("appData", JSON.stringify(data))`. */
    method SetItem(data: AppData)
      modifies this
      ensures value == Json(Serialize(data))
    {
      value := Json(Serialize(data));
    }

    /** The query's `queryFn`: seed an empty store, otherwise parse what is there. */
    method QueryFn(seed: AppData) returns (r: LoadResult)
      modifies this
      ensures r == LoadResultOf(old(value), seed)
      ensures value == StoredAfterLoad(old(value), seed)
      ensures IsFalsy(old(value)) ==> r == Loaded(Serialize(seed)) && value == Json(Serialize(seed))
      ensures !IsFalsy(old(value)) ==> value == old(value)
    {
      if IsFalsy(value) {
        SetItem(seed);
        return Loaded(Serialize(seed));
      }
      match value
      case Json(doc) => r := Loaded(doc);
      case Malformed => r := Threw;
    }
  }
}
