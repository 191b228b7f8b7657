/**
 * Backend selection: the two backend variants, the replies a production vault gives, the dispatch of
 * each primitive to its variant, and the `Client` factory that records the last backend it built.
 */
module Clients {
  import opened Wrappers
  import opened Accounts
  import opened ApiClients
  import opened SandboxClients

  /** A backend: the sandbox fixture or the production vault, each holding its configuration. */
  datatype ApiClient =
    | SandboxClient(ledger: string, baseUrl: string, apiKey: string)
    | ProductionClient(ledger: string, baseUrl: string, apiKey: string)

  /** What the production vault answers to each primitive, as seen by the adapter. */
  datatype VaultReplies = VaultReplies(
    details: Outcome<CollectionDetails>,
    create: Outcome<bool>,
    delete: Outcome<bool>,
    count: Outcome<CountPayload>,
    data: Outcome<DataPayload>,
    setData: Outcome<SetPayload>)

  /** The backend `Client(...)` builds: the variant the flag selects, holding the arguments unchanged. */
  function NewClient(ledger: string, baseUrl: string, apiKey: string, sandbox: bool := false): (c: ApiClient)
    ensures c.SandboxClient? <==> sandbox
    ensures c.ledger == ledger && c.baseUrl == baseUrl && c.apiKey == apiKey
  {
    if sandbox then SandboxClient(ledger, baseUrl, apiKey) else ProductionClient(ledger, baseUrl, apiKey)
  }

  function CallGetCollectionDetails(c: ApiClient, vault: VaultReplies, collectionName: string): Outcome<CollectionDetails>
  {
    if c.SandboxClient? then Replied(SandboxGetCollectionDetails(collectionName)) else vault.details
  }

  function CallCountCollection(c: ApiClient, vault: VaultReplies, collectionName: string): Outcome<CountPayload>
  {
    if c.SandboxClient? then Replied(SandboxCountCollection(collectionName)) else vault.count
  }

  function CallCreateCollection(c: ApiClient, vault: VaultReplies, collectionName: string, schema: CollectionSchema): Outcome<bool>
  {
    if c.SandboxClient? then Replied(SandboxCreateCollection(collectionName, schema)) else vault.create
  }

  function CallDeleteCollection(c: ApiClient, vault: VaultReplies, collectionName: string): Outcome<bool>
  {
    if c.SandboxClient? then Replied(SandboxDeleteCollection(collectionName)) else vault.delete
  }

  function CallGetData(c: ApiClient, vault: VaultReplies, collectionName: string, page: int, count: int): Outcome<DataPayload>
  {
    if c.SandboxClient? then Replied(SandboxGetData(collectionName, page, count)) else vault.data
  }

  function CallSetData(c: ApiClient, vault: VaultReplies, collectionName: string, data: Document): Outcome<SetPayload>
  {
    if c.SandboxClient? then Replied(SandboxSetData(collectionName, data)) else vault.setData
  }

  /**
   * A sandbox backend never fails and ignores its arguments (and the vault): creation and deletion
   * always confirm, the count is 2, and the search and write replies are the fixtures.
   */
  lemma SandboxNeverFails(ledger: string, baseUrl: string, apiKey: string, vault: VaultReplies, name: string,
                          schema: CollectionSchema, page: int, count: int, d: Document)
    ensures var c := NewClient(ledger, baseUrl, apiKey, true);
      && CallGetCollectionDetails(c, vault, name) == Replied(SandboxDetails)
      && CallCountCollection(c, vault, name) == Replied(CountPayload(Present(2)))
      && CallCreateCollection(c, vault, name, schema) == Replied(true)
      && CallDeleteCollection(c, vault, name) == Replied(true)
      && CallGetData(c, vault, name, page, count) == Replied(SandboxData)
      && CallSetData(c, vault, name, d) == Replied(SetPayload(Present("36")))
  {
  }

  /** The flag defaults to production. */
  lemma ProductionByDefault(ledger: string, baseUrl: string, apiKey: string)
    ensures NewClient(ledger, baseUrl, apiKey).ProductionClient?
  {
  }

  /** The `Client` class: its `_instance` attribute holds the backend the latest call built. */
  class Client {
    var instance: Option<ApiClient>

    constructor ()
      ensures instance == None
    {
      instance := None;
    }

    /** `Client(...)`: builds the selected backend and overwrites `instance` with it, on every call. */
    method New(ledger: string, baseUrl: string, apiKey: string, sandbox: bool := false) returns (c: ApiClient)
      modifies this
      ensures c == NewClient(ledger, baseUrl, apiKey, sandbox)
      ensures instance == Some(c)
    {
      if sandbox {
        c := SandboxClient(ledger, baseUrl, apiKey);
      } else {
        c := ProductionClient(ledger, baseUrl, apiKey);
      }
      instance := Some(c);
    }
  }

  /** `instance` is no cache: a second call replaces the first call's backend. */
  method LatestCallWins(factory: Client)
    modifies factory
    ensures factory.instance == Some(ProductionClient("l2", "u2", "k2"))
  {
    var first := factory.New("l1", "u1", "k1", true);
    var second := factory.New("l2", "u2", "k2");
    assert first != second;
  }
}
