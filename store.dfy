/**
 * The document store as the routes see it: each collection is a sequence of
 * records, and a query result is an input constrained by what the store
 * promises about it (every document found is in the collection and matches
 * the filter; a non-zero limit bounds the count, a zero limit means none).
 */
module Store {
  import opened Common
  import opened Models

  datatype Db = Db(users: seq<User>, posts: seq<Post>, pages: seq<Page>, plugins: seq<Plugin>)

  /** cursor.limit(n): 0 means unlimited, a negative n returns at most -n documents. */
  predicate WithinLimit(n: nat, limit: int) {
    limit == 0 || n <= (if limit < 0 then -limit else limit)
  }

  /** find_documents(collection, filter, limit=limit) may return `found`. */
  ghost predicate QueryResult<T>(found: seq<T>, collection: seq<T>, filter: T -> bool, limit: int) {
    && (forall i | 0 <= i < |found| :: found[i] in collection && filter(found[i]))
    && WithinLimit(|found|, limit)
  }

  /** find_document(collection, {"_id": id}): the first document whose id is `id`. */
  function FindById<T>(docs: seq<T>, idOf: T -> string, id: string): (r: Option<T>)
    ensures r.Some? ==> r.value in docs && idOf(r.value) == id
    ensures r.None? <==> forall i | 0 <= i < |docs| :: idOf(docs[i]) != id
  {
    if docs == [] then None
    else if idOf(docs[0]) == id then Some(docs[0])
    else FindById(docs[1..], idOf, id)
  }

  /** find_document("users", {"_id": id}). */
  function FindUser(users: seq<User>, id: string): Option<User> {
    FindById(users, (x: User) => x.id, id)
  }

  /** The author name the routes display: the user's name, or "Unknown". */
  function AuthorName(users: seq<User>, id: string): string {
    match FindUser(users, id)
    case Some(a) => a.name
    case None => "Unknown"
  }
}
