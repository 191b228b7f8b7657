/**
 * The interface of a ledger backend: the payloads its six primitives return, the outcome of a call
 * (a payload or the failure the HTTP layer raises) and the requests themselves.
 */
module ApiClients {
  import opened Wrappers
  import opened Accounts

  /** How a backend call can fail: an HTTP status error, a transport error, or any other exception. */
  datatype BackendError =
    | HttpStatus(code: int)
    | RequestErr(text: string)
    | Other(text: string)

  /** The outcome of one backend call. */
  datatype Outcome<+T> = Replied(value: T) | Raised(err: BackendError)

  /** The collection details document: its `fields` and `indexes` keys, each possibly absent. */
  datatype CollectionDetails = CollectionDetails(fields: Option<seq<SchemaField>>, indexes: Option<seq<SchemaIndex>>)

  /** One key of a JSON object: absent, present with `null`, or present with a value. */
  datatype Entry<+T> = Absent | Null | Present(value: T)
  {
    /** The key's value as Python holds it: None for `null`. */
    function Held(): Option<T>
      requires !Absent?
    {
      if Present? then Some(value) else None
    }
  }

  /** The count document: its `count` key. */
  datatype CountPayload = CountPayload(count: Entry<int>)

  /** One revision of the search result: its `document` key. */
  datatype Revision = Revision(document: Entry<Document>)

  /** The search result: its `revisions` key. */
  datatype DataPayload = DataPayload(revisions: Entry<seq<Revision>>)

  /** The insertion result: its `transactionId` key. */
  datatype SetPayload = SetPayload(transactionId: Entry<string>)

  /** A request to one of the six primitives, with its arguments. */
  datatype Request =
    | GetCollectionDetails(name: string)
    | CountCollection(name: string)
    | CreateCollection(name: string, schema: CollectionSchema)
    | DeleteCollection(name: string)
    | GetData(name: string, page: int, count: int)
    | SetData(name: string, data: Document)

  /** The text of the error raised when an attribute is looked up on None. */
  function NoAttribute(attribute: string): string
  {
    "'NoneType' object has no attribute '" + attribute + "'"
  }

  /** The text of the error raised when None is iterated over. */
  const NotIterable: string := "'NoneType' object is not iterable"

  /**
   * The document of a revision, as `revision.get("document", {})` and the `.get` calls on it see it:
   * an absent key is the empty document; a `null` one makes the first `.get` raise.
   */
  function DocumentOf(r: Revision): (d: Result<Document, string>)
    ensures d.Err? <==> r.document.Null?
    ensures d.Err? ==> d.error == NoAttribute("get")
    ensures r.document.Absent? ==> d == Ok(EmptyDocument)
    ensures r.document.Present? ==> d == Ok(r.document.value)
  {
    match r.document
    case Absent => Ok(EmptyDocument)
    case Null => Err(NoAttribute("get"))
    case Present(doc) => Ok(doc)
  }

  /**
   * The revisions the loop walks, as `data.get("revisions", [])` gives them: an absent key is the
   * empty list; a `null` one makes the loop raise.
   */
  function RevisionsOf(p: DataPayload): (rs: Result<seq<Revision>, string>)
    ensures rs.Err? <==> p.revisions.Null?
    ensures rs.Err? ==> rs.error == NotIterable
    ensures p.revisions.Absent? ==> rs == Ok([])
    ensures p.revisions.Present? ==> rs == Ok(p.revisions.value)
  {
    match p.revisions
    case Absent => Ok([])
    case Null => Err(NotIterable)
    case Present(revisions) => Ok(revisions)
  }
}
