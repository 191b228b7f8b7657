/** The sandbox backend: every primitive returns a fixed document, whatever its arguments. */
module SandboxClients {
  import opened Wrappers
  import opened OperationTypes
  import opened Accounts
  import opened ApiClients

  /** The collection details fixture: the six account fields after `_id` and `_vault_md.ts`, three indexes. */
  const SandboxDetails: CollectionDetails := CollectionDetails(
    Some([ SchemaField("_id", "STRING"),
           SchemaField("_vault_md.ts", "INTEGER"),
           SchemaField("account_number", "INTEGER"),
           SchemaField("account_name", "STRING"),
           SchemaField("iban", "STRING"),
           SchemaField("address", "STRING"),
           SchemaField("amount", "INTEGER"),
           SchemaField("type", "STRING") ]),
    Some([ SchemaIndex(["_id"], true),
           SchemaIndex(["_vault_md.ts"], false),
           SchemaIndex(["account_number"], true) ]))

  const SandboxCount: CountPayload := CountPayload(Present(2))

  /** The fixture document with the given account number; both fixture documents differ only there. */
  function SandboxDocument(accountNumber: int): Document
  {
    Document(Some(accountNumber), Some("Test Name"), Some("IT123456978213456789"), Some("Test Address 2"),
             Some(10.0), Some("sending"))
  }

  const SandboxData: DataPayload := DataPayload(Present([ Revision(Present(SandboxDocument(1234))),
                                                          Revision(Present(SandboxDocument(12345))) ]))

  const SandboxSet: SetPayload := SetPayload(Present("36"))

  function SandboxGetCollectionDetails(collectionName: string): CollectionDetails { SandboxDetails }

  function SandboxCountCollection(collectionName: string): CountPayload { SandboxCount }

  function SandboxCreateCollection(collectionName: string, schema: CollectionSchema): bool { true }

  function SandboxDeleteCollection(collectionName: string): bool { true }

  function SandboxGetData(collectionName: string, page: int, count: int): DataPayload { SandboxData }

  function SandboxSetData(collectionName: string, data: Document): SetPayload { SandboxSet }

  /** The account each fixture document describes. */
  function SandboxAccount(accountNumber: int): Account
  {
    Account(accountNumber, "Test Name", "IT123456978213456789", "Test Address 2", 10.0, Sending)
  }

  /** The fixture documents pass validation and give the fixture accounts; their type resolves to SENDING. */
  lemma SandboxDocumentsValid(accountNumber: int)
    ensures FromValue("sending") == Some(Sending)
    ensures ValidateAccount(SandboxDocument(accountNumber)) == Ok(SandboxAccount(accountNumber))
  {
    var a := SandboxAccount(accountNumber);
    assert IbanValid(a.iban);
    ValidateRoundTrip(a);
    assert ToDocument(a) == SandboxDocument(accountNumber);
  }

  /** The search fixture holds exactly two revisions, for accounts 1234 and 12345, whatever the page. */
  lemma SandboxDataShape(collectionName: string, page: int, count: int)
    ensures RevisionsOf(SandboxGetData(collectionName, page, count)).Ok?
    ensures var revs := RevisionsOf(SandboxGetData(collectionName, page, count)).value;
      && |revs| == 2
      && DocumentOf(revs[0]) == Ok(SandboxDocument(1234)) && DocumentOf(revs[1]) == Ok(SandboxDocument(12345))
  {
  }
}
