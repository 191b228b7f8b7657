/**
 * The process-wide adapter: built and connected on first use, cached only once connect succeeds.
 */
module AdapterSingletons {
  import opened Wrappers
  import opened ApiClients
  import opened Clients
  import opened Adapter

  /** The HTTP error the web framework turns into a response. */
  datatype HttpException = HttpException(statusCode: int, detail: string)

  class ImmuDBAdapterSingleton {
    /** The cached adapter, null until a connect has succeeded. */
    var instance: ImmuDBAdapter?

    constructor ()
      ensures instance == null
    {
      instance := null;
    }

    /**
     * Returns the cached adapter untouched, whatever the arguments. Otherwise builds one from the
     * arguments and connects it: success caches and returns it; failure raises a 500 whose detail
     * is the connect message and leaves nothing cached, so the next call tries again.
     */
    method GetInstance(factory: Client, sandbox: bool, ledger: string, collection: string, baseUrl: string,
                       apiKey: string, vault: VaultReplies)
      returns (r: Result<ImmuDBAdapter, HttpException>)
      modifies this, factory
      ensures old(instance) != null ==> r == Ok(old(instance)) && instance == old(instance) && unchanged(factory)
      ensures old(instance) == null && ConnectError(sandbox, collection, vault).None? ==>
                && r.Ok? && fresh(r.value) && instance == r.value
                && r.value.sandbox == sandbox && r.value.ledger == ledger && r.value.collectionName == collection
                && r.value.baseUrl == baseUrl && r.value.apiKey == apiKey
                && r.value.client == factory.instance
      ensures old(instance) == null && ConnectError(sandbox, collection, vault).Some? ==>
                r == Err(HttpException(500, ConnectError(sandbox, collection, vault).value)) && instance == null
      ensures old(instance) == null ==>
                factory.instance == Some(if sandbox then NewClient("test_ledger", "http://example.com", "test_api_key", true)
                                         else NewClient(ledger, baseUrl, apiKey, false))
    {
      if instance != null {
        return Ok(instance);
      }
      var adapter := new ImmuDBAdapter(sandbox, ledger, collection, baseUrl, apiKey);
      var e := adapter.Connect(factory, vault);
      if e.Some? {
        // str() of the ConnectionError is its message.
        return Err(HttpException(500, e.value.Str()));
      }
      instance := adapter;
      r := Ok(adapter);
    }
  }

  /** A failed first connect caches nothing: a second call, against a healthy vault, connects afresh. */
  method RetryAfterFailure(single: ImmuDBAdapterSingleton, factory: Client, collection: string,
                           down: VaultReplies, healthy: VaultReplies)
    returns (first: Result<ImmuDBAdapter, HttpException>, second: Result<ImmuDBAdapter, HttpException>)
    requires single.instance == null
    requires ConnectError(false, collection, down).Some? && ConnectError(false, collection, healthy).None?
    modifies single, factory
    ensures first.Err? && first.error.statusCode == 500
    ensures second.Ok? && single.instance == second.value && second.value.collectionName == collection
  {
    first := single.GetInstance(factory, false, "ledger", collection, "https://vault", "key", down);
    second := single.GetInstance(factory, false, "ledger", collection, "https://vault", "key", healthy);
  }

  /** Once an adapter is cached, later arguments and vault replies are ignored: the same object comes back. */
  method FirstSuccessWins(single: ImmuDBAdapterSingleton, factory: Client, vault: VaultReplies, other: VaultReplies)
    returns (first: Result<ImmuDBAdapter, HttpException>, second: Result<ImmuDBAdapter, HttpException>)
    requires single.instance == null
    modifies single, factory
    ensures first.Ok? && second == first && first.value.sandbox && first.value.ledger == "ledger-a"
  {
    first := single.GetInstance(factory, true, "ledger-a", "accounts", "https://a", "key-a", vault);
    second := single.GetInstance(factory, false, "ledger-b", "other", "https://b", "key-b", other);
  }
}
