# BragApp account vault adapter, in Dafny

This project models the backend core of BragApp. The core is an adapter that stores bank accounts in an
immudb Vault collection. The model covers six pieces:

- **Startup reconciliation** (`connect`). On a production backend it fetches the collection's schema and
  diffs it against the constant `account_schema`. Missing fields, type mismatches or a missing unique index
  on `account_number` raise a `ConnectionError`. A 404 leads to creating the collection. Every other
  failure raises a `ConnectionError` whose text follows a template: a fixed text, the text with the
  collection's name, the text with the failed call's `str(e)` (a KeyError shows as `'fields'`), or the
  creation text with the status code. Python's exception semantics are written out:
  - an error raised inside an `except` handler escapes the sibling handlers;
  - the schema errors are re-wrapped as "The vault is not available. …";
  - the unconfirmed-creation error is swallowed by the generic handler.
- **The three operations** (`count_accounts`, `get_accounts`, `set_accounts`). Each maps a backend outcome
  to an `ImmuDBAdapterResponse`. An outcome is a reply, an HTTP status error, a transport error or any other
  exception. Each operation has its own status-code table.
- **The account model.** This is the schema constant, the `Account` record and its field constraints. The
  IBAN pattern is modelled as a matcher over pattern pieces and proved equal to a closed-form predicate.
  The model also covers the two-member `OperationType` enum.
- **The sandbox backend** (fixed replies) and the `Client` factory that selects the backend variant.
- **The adapter singleton.** It caches the adapter only after a successful connect.
- **`str_to_bool`.**

## Structure

| file | module | models |
|---|---|---|
| `wrappers.dfy` | `Wrappers` | `Option`, `Result` |
| `operation_type.dfy` | `OperationTypes` | the `OperationType` enum |
| `account.dfy` | `Accounts` | `account_schema`, the IBAN pattern, `Account` validation |
| `response.dfy` | `AdapterResponses` | `ImmuDBAdapterResponse` |
| `api_client.dfy` | `ApiClients` | backend outcomes, payloads, the six primitives' requests |
| `sandbox_client.dfy` | `SandboxClients` | the sandbox fixtures |
| `client.dfy` | `Clients` | the backend variants, dispatch, the `Client` factory class |
| `adapter.dfy` | `Adapter` | schema diff, reconciliation, the operations, class `ImmuDBAdapter` |
| `singleton.dfy` | `AdapterSingletons` | class `ImmuDBAdapterSingleton` |
| `utils.dfy` | `Utils` | `str_to_bool` |

### Design choices

- **The backend interface.** The six-primitive interface becomes the datatype `ApiClient`
  (`SandboxClient | ProductionClient`), with one dispatch function per primitive.
  - The production vault's answers are a value `VaultReplies`, one outcome per primitive.
  - An outcome is `Replied(payload)` or `Raised(HttpStatus(code) | RequestErr(text) | Other(text))`.
- **What changes state.** `ImmuDBAdapter` is a class: `connect` assigns its `client` field.
  - The ghost field `startupRequests` records the primitives startup invokes. This lets "exactly one
    creation after a 404" be stated.
  - The `Client` factory's class attribute `_instance` and the singleton's `_instance` are fields of
    objects passed in.
- **Methods and their specification functions.** `_verify_fields` and `get_accounts` loop in the source,
  so they are methods with loop invariants. Each is proved equal to a specification function: `Diff` and
  `GetResult`. The properties are then proved about those functions.
- **`count_accounts` and `set_accounts`** are pure case analyses, so they are functions.
- **Reference definitions.** Where a method and a function describe the same step, the function is the
  reference and the method's ensures equates the two:
  - `Clients.NewClient` is the reference for the factory method `Clients.Client.New`;
  - `Adapter.CreationError` is the reference for `Adapter.ImmuDBAdapter.CreateCollection`;
  - `Adapter.Diff`, `Adapter.GetResult` and `Adapter.ReconcileError` are the references for `VerifyFields`,
    `GetAccounts` and `CheckOrCreateCollection`.
- **JSON keys.** A key the adapter reads (`count`, `transactionId`, `revisions`, `document`) is
  `Absent`, `Null` or `Present(value)`, because the source treats a missing key and a `null` value
  differently: `'count' in data` holds for `null`, while `.get("revisions", [])` gives None and the loop over
  it raises.
- **Behaviour of the code worth knowing:**
  - Unlike `count_accounts`, `get_accounts` has no 404 branch (`immudb_adapter.py:245-254`): a 404 gives
    "Vault unknown error.".
  - A status error outside the table gives "Vault unknown error." and keeps its own code in the response.
  - `str_to_bool`'s doc comment (`utils.py:12-13`) says `default` is returned when the text matches no
    truthy spelling, but the code (`utils.py:19`) never reads it: such text gives false.
  - A falsy creation result raises "Failed to create the collection in the vault." at
    `immudb_adapter.py:103`. The handler at `:111` replaces it, so the message that surfaces is
    "The vault is not available.".

## Model

| member | source | states |
|---|---|---|
| Accounts.AccountSchemaShape | backend/app/schemas/account.py:4-36 | six fields with distinct names; one index, the unique `['account_number']` |
| Accounts.FixedPairMeaning | backend/app/schemas/account.py:54 | a `{2}` piece followed by the rest matches iff the first two characters are in the class and the rest matches |
| Accounts.LastPieceMeaning | backend/app/schemas/account.py:54 | the anchored `[A-Z0-9]{1,30}$` piece matches iff the text is 1 to 30 capitals or digits, nothing after |
| Accounts.IbanPatternMeaning | backend/app/schemas/account.py:54 | the anchored IBAN pattern matches iff the closed-form predicate does (length 5..34, two capitals, two digits, capitals or digits) |
| Accounts.ValidIbanShape | backend/app/schemas/account.py:54 | a matching IBAN has length 5..34 and opens with two capitals then two digits |
| Accounts.IbanRejections | backend/app/schemas/account.py:54 | lower-case country letters, a letter among the check digits, and an empty tail are rejected |
| Accounts.IbanShortestAccepted | backend/app/schemas/account.py:54 | the five-character "IT12A" is accepted |
| Accounts.InvalidFields | backend/app/schemas/account.py:52-57 | the fields the validator rejects; stated by `NoInvalidFields` and the length-bound lemmas |
| Accounts.ValidateAccount | backend/app/schemas/account.py:52-57 | the validator; stated by `ValidateAccountMeaning` |
| Accounts.IbanPattern | backend/app/schemas/account.py:54 | the pattern's three pieces; stated by `IbanPatternMeaning` |
| Accounts.MatchesPieces | backend/app/schemas/account.py:54 | the anchored match of a piece sequence; stated by `FixedPairMeaning`, `LastPieceMeaning` and `IbanPatternMeaning` |
| Accounts.IbanValid | backend/app/schemas/account.py:54 | the closed form of the pattern; stated equal to the match by `IbanPatternMeaning` |
| Accounts.NameValid | backend/app/schemas/account.py:53 | the `account_name` bounds; stated by `NameLengthBounds` |
| Accounts.AddressValid | backend/app/schemas/account.py:55 | the `address` bounds; stated by `AddressLengthBounds` |
| Accounts.AmountValid | backend/app/schemas/account.py:56 | `amount >= 1`; stated by `NoInvalidFields` and `ValidateAccountMeaning` |
| Accounts.ValidAccount | backend/app/schemas/account.py:53-56 | the declared constraints together; stated by `ValidateAccountMeaning` and `ValidDocumentsAreAccountDocuments` |
| Accounts.ValidationText | backend/app/schemas/account.py:52-57 | the failure text naming the rejected fields; stated by `ValidateAccountMeaning` |
| Accounts.NoInvalidFields | backend/app/schemas/account.py:52-57 | no field is rejected iff every field is present and meets its constraint |
| Accounts.ToDocument | backend/app/adapters/immudb_adapter.py:287 | an account's document carries its number and the enum's value as `type` |
| Accounts.ValidateAccountMeaning | backend/app/schemas/account.py:52-57 | validation succeeds iff no field is rejected; the account is then valid and its document is the input; a failure's text names the rejected fields |
| Accounts.ValidateRoundTrip | backend/app/schemas/account.py:52-57 | a valid account survives validation of its own document unchanged |
| Accounts.ValidDocumentsAreAccountDocuments | backend/app/schemas/account.py:52-57 | a document validates iff it is the document of some valid account (both directions) |
| Accounts.AnyAccountNumber | backend/app/schemas/account.py:52 | replacing the account number by any integer does not change whether validation succeeds |
| Accounts.NameLengthBounds | backend/app/schemas/account.py:53 | `account_name` is rejected iff its length is outside 1..100 |
| Accounts.AddressLengthBounds | backend/app/schemas/account.py:55 | `address` is rejected iff its length is outside 1..200 |
| OperationTypes.OperationType.Value | backend/app/schemas/operation_type.py:12-13 | each member's value is non-empty and lower-case |
| OperationTypes.FromValue | backend/app/schemas/operation_type.py:3-13 | lookup by value returns a member with that value, or None when no member has it |
| OperationTypes.ValueRoundTrip | backend/app/schemas/operation_type.py:12-13 | lookup of `s` gives member `t` iff `t`'s value is `s` |
| OperationTypes.ValueInjective | backend/app/schemas/operation_type.py:12-13 | distinct members have distinct values |
| OperationTypes.ExactlyTwoMembers | backend/app/schemas/operation_type.py:12-13 | every member is SENDING or RECEIVING, with values "sending" and "receiving" |
| AdapterResponses.Success | backend/app/adapters/immudb_adapter.py:169 | a data-only record: a consistent success carrying the payload |
| AdapterResponses.Failure | backend/app/adapters/immudb_adapter.py:171-175 | a failure record with the code and no data, carrying the given message, consistent exactly when that message is non-empty |
| AdapterResponses.DefaultResponse | backend/app/adapters/immudb_adapter_response.py:18 | the default record is status true, error "", code 200, no data |
| AdapterResponses.FieldsAsGiven | backend/app/adapters/immudb_adapter_response.py:29-32 | each field equals its constructor argument |
| AdapterResponses.NoLinkEnforced | backend/app/adapters/immudb_adapter_response.py:18-32 | a failure with code 200 and no message is representable and inconsistent |
| AdapterResponses.SuccessShape | backend/app/adapters/immudb_adapter.py:169 | a data-only response is a consistent success with code 200, error "" and the payload |
| SandboxClients.SandboxDocumentsValid | backend/app/immudb/_sandbox_client.py:74-79 | both fixture documents validate to the fixture accounts; "sending" resolves to SENDING |
| SandboxClients.SandboxDataShape | backend/app/immudb/_sandbox_client.py:58-104 | the search fixture has two revisions, for accounts 1234 and 12345, whatever the page |
| ApiClients.NoAttribute | backend/app/adapters/immudb_adapter.py:166 | the AttributeError text of a lookup on None |
| ApiClients.DocumentOf | backend/app/adapters/immudb_adapter.py:229-231 | reading a revision's document fails iff it is `null`, with the AttributeError of `.get`; an absent one is `{}` and a present one is read as it is |
| ApiClients.RevisionsOf | backend/app/adapters/immudb_adapter.py:228 | walking the revisions fails iff they are `null`, with the TypeError of iterating None; absent ones are `[]` and present ones are walked as they are |
| SandboxClients.SandboxGetCollectionDetails | backend/app/immudb/_sandbox_client.py:14-39 | the details fixture; stated by `SandboxNeverFails` and `SandboxDetailsAreClean` |
| SandboxClients.SandboxCountCollection | backend/app/immudb/_sandbox_client.py:41-46 | the count fixture 2; stated by `SandboxNeverFails` |
| SandboxClients.SandboxCreateCollection | backend/app/immudb/_sandbox_client.py:48-51 | always true; stated by `SandboxNeverFails` |
| SandboxClients.SandboxDeleteCollection | backend/app/immudb/_sandbox_client.py:53-56 | always true; stated by `SandboxNeverFails` |
| SandboxClients.SandboxGetData | backend/app/immudb/_sandbox_client.py:58-104 | the search fixture; stated by `SandboxDataShape` and `SandboxListing` |
| SandboxClients.SandboxSetData | backend/app/immudb/_sandbox_client.py:106-111 | the insertion fixture "36"; stated by `SandboxNeverFails` |
| Clients.CallGetCollectionDetails | backend/app/immudb/_api_client.py:32-45 | dispatch of the primitive to the backend variant; stated by `SandboxNeverFails` |
| Clients.CallCountCollection | backend/app/immudb/_api_client.py:46-59 | dispatch, as above |
| Clients.CallCreateCollection | backend/app/immudb/_api_client.py:60-73 | dispatch, as above |
| Clients.CallDeleteCollection | backend/app/immudb/_api_client.py:74-86 | dispatch, as above |
| Clients.CallGetData | backend/app/immudb/_api_client.py:87-102 | dispatch, as above |
| Clients.CallSetData | backend/app/immudb/_api_client.py:103-114 | dispatch, as above |
| Clients.NewClient | backend/app/immudb/client.py:8-15 | the variant is the sandbox iff the flag is set; ledger, URL and key pass through unchanged |
| Clients.SandboxNeverFails | backend/app/immudb/_sandbox_client.py:14-111 | every sandbox primitive replies with its fixture, whatever the arguments: creation and deletion true, count 2, transaction "36" |
| Clients.ProductionByDefault | backend/app/immudb/client.py:8 | the flag defaults to production |
| Clients.Client.constructor | backend/app/immudb/client.py:6 | no backend is held before the first call |
| Clients.Client.New | backend/app/immudb/client.py:8-15 | returns the selected backend and stores it as the latest instance |
| Clients.LatestCallWins | backend/app/immudb/client.py:10-15 | after two calls the held instance is the second call's |
| Adapter.DecimalText | backend/app/adapters/immudb_adapter.py:109 | the f-string rendering of the status code is never empty |
| Adapter.DecimalTextMeaning | backend/app/adapters/immudb_adapter.py:109 | the text reads back as the number: its digits denote it, with no leading zero, behind a '-' when negative |
| Adapter.DigitChar | backend/app/adapters/immudb_adapter.py:109 | each digit character is a digit and reads back as its value |
| Adapter.ListRepr | backend/app/adapters/immudb_adapter.py:90-92 | the repr of a list is bracketed, and is `[]` exactly for the empty list |
| Adapter.Exc.Str | backend/app/adapters/immudb_adapter.py:80 | `str(e)`: the text of an exception, a KeyError's key in quotes; stated by `ExcOf` and `MalformedDetails` |
| Adapter.ExcOf | backend/app/adapters/immudb_adapter.py:80 | a failed call raises a status error iff it failed with a status, keeping the code; otherwise `str` of the exception is the failure's text |
| Adapter.FirstNamed | backend/app/adapters/immudb_adapter.py:140 | the `next(...)` search; stated by `FirstNamedMeaning`, `FirstNamedSkips` and `FirstNamedOfDistinct` |
| Adapter.MismatchText | backend/app/adapters/immudb_adapter.py:143 | the mismatch entry's text; stated by `TypeComparisonIsExact` and `WrongTypeReported` |
| Adapter.QuotedItems | backend/app/adapters/immudb_adapter.py:90-92 | the quoted, comma-separated items inside a list repr; stated by `ListRepr` |
| Adapter.FirstNamedMeaning | backend/app/adapters/immudb_adapter.py:140 | the search finds nothing iff no observed field has the name, otherwise the earliest one that has it |
| Adapter.FirstNamedSkips | backend/app/adapters/immudb_adapter.py:140 | an observed field with another name does not change the search result |
| Adapter.FirstNamedOfDistinct | backend/app/adapters/immudb_adapter.py:140 | among distinct names, each field is found for its own name |
| Adapter.MissingFieldsMeaning | backend/app/adapters/immudb_adapter.py:136-145 | a name is reported missing iff it names an expected field that no observed field has |
| Adapter.TypeMismatchesMeaning | backend/app/adapters/immudb_adapter.py:136-143 | a text is a mismatch entry iff it is the entry of an expected field whose first same-named observed field has another type |
| Adapter.FindingsConcatenate | backend/app/adapters/immudb_adapter.py:136-145 | both lists follow the expected fields' order: the findings of a concatenation concatenate |
| Adapter.FindingsBounded | backend/app/adapters/immudb_adapter.py:141-145 | the two lists together are no longer than the expected fields, since each expected field adds at most one entry |
| Adapter.FindingsDependOnFirstMatches | backend/app/adapters/immudb_adapter.py:140-145 | the findings depend on the observed fields only through each expected name's first match |
| Adapter.ExtraFieldIgnored | backend/app/adapters/immudb_adapter.py:140-145 | an observed field no expected field names is ignored, wherever it stands |
| Adapter.SingleFieldFindings | backend/app/adapters/immudb_adapter.py:141-145 | one expected field is reported missing iff unmatched, mismatched iff its first match has another type |
| Adapter.FindingsNoneWhenAllMatch | backend/app/adapters/immudb_adapter.py:136-145 | when every expected field finds itself, both lists are empty |
| Adapter.FindingsAroundOne | backend/app/adapters/immudb_adapter.py:136-145 | when all fields but one find themselves, the findings are that one field's |
| Adapter.TypeComparisonIsExact | backend/app/adapters/immudb_adapter.py:142-143 | any other type spelling, even another case, is exactly one mismatch with the text `Field n type mismatch: A != B` |
| Adapter.UniqueIndexExamples | backend/app/adapters/immudb_adapter.py:148-150 | only an exact single-field unique `['account_number']` index counts; a composite, non-unique or absent one does not |
| Adapter.SelfDiffClean | backend/app/adapters/immudb_adapter.py:129-145 | fields with distinct names, diffed against themselves, give no findings |
| Adapter.AccountSchemaAgreesWithItself | backend/app/schemas/account.py:4-36 | `account_schema` verified against itself: nothing missing, no mismatch, unique index present |
| Adapter.SandboxDetailsAreClean | backend/app/immudb/_sandbox_client.py:20-38 | the sandbox details, with their extra fields and indexes, give no findings |
| Adapter.DropMatches | backend/app/adapters/immudb_adapter.py:140-145 | with one field left out, every other field finds itself and the left-out one is missing |
| Adapter.RetypeMatches | backend/app/adapters/immudb_adapter.py:140-143 | with one field retyped, every other field finds itself and the retyped one is found with its new type |
| Adapter.FindingsOfSplit | backend/app/adapters/immudb_adapter.py:136-145 | when every field but one finds itself, the findings are that one field's |
| Adapter.DropOneField | backend/app/adapters/immudb_adapter.py:136-145 | leaving out one of several distinctly named fields reports exactly that name missing and no mismatch |
| Adapter.RetypeOneField | backend/app/adapters/immudb_adapter.py:136-145 | retyping one of several distinctly named fields reports nothing missing and exactly that mismatch |
| Adapter.MissingFields | backend/app/adapters/immudb_adapter.py:136-145 | the `missing_fields` the loop appends; stated by `MissingFieldsMeaning` |
| Adapter.TypeMismatches | backend/app/adapters/immudb_adapter.py:136-143 | the `type_mismatches` the loop appends; stated by `TypeMismatchesMeaning` |
| Adapter.AccountNumberUnique | backend/app/adapters/immudb_adapter.py:148-150 | the `any(...)` over the indexes; stated by `UniqueIndexExamples` |
| Adapter.Diff | backend/app/adapters/immudb_adapter.py:129-152 | the diff raises iff `fields` or `indexes` is missing, with the KeyError of `fields` first |
| Adapter.SchemaError | backend/app/adapters/immudb_adapter.py:89-94 | the schema check raises nothing iff no field is missing, none mismatches and the unique index exists |
| Adapter.SchemaErrorPriority | backend/app/adapters/immudb_adapter.py:89-94 | missing fields are reported first, then type mismatches, each with the list's repr |
| Adapter.SchemaCheckRaises | backend/app/adapters/immudb_adapter.py:83-94 | the schema check raises an HTTP status error iff the fetch failed with one |
| Adapter.CreationError | backend/app/adapters/immudb_adapter.py:97-112 | creation raises nothing iff the vault confirms it |
| Adapter.ReconcileError | backend/app/adapters/immudb_adapter.py:68-80 | reconciliation succeeds iff the fetched schema is clean, or the fetch gave 404 and the creation was confirmed |
| Adapter.CreationOnlyAfterNotFound | backend/app/adapters/immudb_adapter.py:68-73 | a 404 leads to exactly one creation, of `account_schema`; any other reply leads to none |
| Adapter.OtherStatusMeansUnavailable | backend/app/adapters/immudb_adapter.py:71-77 | any status but 404 gives "Collection … is not available in the vault." with no creation request |
| Adapter.CreationFailureMessages | backend/app/adapters/immudb_adapter.py:97-112 | after a 404: 402 asks for payment, another code is quoted, a falsy or failed call gives "The vault is not available.", a confirmation succeeds |
| Adapter.ReconcileRequests | backend/app/adapters/immudb_adapter.py:68-73 | the requests of reconciliation: the details fetch, then a creation after a 404; stated by `CreationOnlyAfterNotFound` and `OtherStatusMeansUnavailable` |
| Adapter.ConnectError | backend/app/adapters/immudb_adapter.py:36-53 | none in sandbox mode, the reconciliation's message otherwise; stated by `ImmuDBAdapter.Connect` and `ReconcileError` |
| Adapter.FetchFailureRewrapped | backend/app/adapters/immudb_adapter.py:79-80 | a transport or other failure of the fetch is re-wrapped with its text |
| Adapter.MalformedDetails | backend/app/adapters/immudb_adapter.py:129-149 | details without `fields` or without `indexes` fail with the quoted missing key |
| Adapter.SchemaFailureRewrapped | backend/app/adapters/immudb_adapter.py:79-94 | a well-formed reply fails exactly with its schema error behind "The vault is not available. " |
| Adapter.MissingFieldReported | backend/app/adapters/immudb_adapter.py:89-90 | leaving any one expected field out fails with `missing fields: ['<that name>']` |
| Adapter.WrongTypeReported | backend/app/adapters/immudb_adapter.py:91-92 | retyping any one expected field fails with `type mismatches: [<that mismatch>]` |
| Adapter.MissingUniqueIndexReported | backend/app/adapters/immudb_adapter.py:93-94 | the right fields with no indexes fail on uniqueness |
| Adapter.SandboxDetailsAccepted | backend/app/adapters/immudb_adapter.py:68-94 | a vault answering with the sandbox's details is accepted without a creation |
| Adapter.ErrorResponse | backend/app/adapters/immudb_adapter.py:177-210 | a failure keeps the upstream code and the table message for a status error; 500 with a fixed or prefixed message otherwise; never data |
| Adapter.StatusMessage | backend/app/adapters/immudb_adapter.py:180-313 | the three if-chains; their content is stated by `StatusMessagesFollowTables` |
| Adapter.MessageTable | backend/app/adapters/immudb_adapter.py:180-313 | the three status tables as maps, the reference for `StatusMessagesFollowTables` |
| Adapter.CountResult | backend/app/adapters/immudb_adapter.py:165-210 | succeeds iff the reply has a `count` key, whose value (None for `null`) becomes the data; a reply without it is the 500 invalid-response failure |
| Adapter.SetResult | backend/app/adapters/immudb_adapter.py:286-333 | succeeds iff the reply has a `transactionId` key, whose value (None for `null`) becomes the data; a reply without it is the 500 invalid-response failure |
| Adapter.NullValuesSucceedEmpty | backend/app/adapters/immudb_adapter.py:168-169 | a `null` count or transaction id is a present key: success with code 200 and no data |
| Adapter.ConvertAll | backend/app/adapters/immudb_adapter.py:227-238 | succeeds iff every item converts, giving one result per item in order; otherwise fails with the first failing item's error |
| Adapter.ConvertStep | backend/app/adapters/immudb_adapter.py:228-238 | one more item extends the conversion by its result, or ends it with its error |
| Adapter.ConvertErrorPersists | backend/app/adapters/immudb_adapter.py:228-238 | an error on a prefix is the error of the whole list |
| Adapter.ParseRevision | backend/app/adapters/immudb_adapter.py:229-237 | reads the document and validates it; its meaning is stated by `ListedAccountsMatchRevisions` and `NullDocumentFailsListing` |
| Adapter.ParseRevisions | backend/app/adapters/immudb_adapter.py:228-238 | `ConvertAll` of `ParseRevision`: one account per revision or the first error |
| Adapter.Listing | backend/app/adapters/immudb_adapter.py:227-240 | the revisions walked, then converted; stated by the listing lemmas below |
| Adapter.GetResult | backend/app/adapters/immudb_adapter.py:224-273 | succeeds iff the revisions can be walked and all convert; any failure on the way fails the whole call with the prefixed message and code 500 |
| Adapter.StatusMessagesFollowTables | backend/app/adapters/immudb_adapter.py:177-191 | each operation's status messages are exactly its table, and "Vault unknown error." off the table |
| Adapter.CountAndGetTablesDiffer | backend/app/adapters/immudb_adapter.py:245-254 | count and list disagree exactly at 404, which list calls unknown |
| Adapter.CountAndSetTablesDiffer | backend/app/adapters/immudb_adapter.py:300-313 | count and create disagree exactly at 404, 409 and 413 |
| Adapter.StatusCodePreserved | backend/app/adapters/immudb_adapter.py:193-197 | every status error keeps its upstream code in all three operations |
| Adapter.ListedAccountsMatchRevisions | backend/app/adapters/immudb_adapter.py:227-240 | a successful listing has one valid account per revision, in order, each carrying its document's values |
| Adapter.InvalidDocumentFailsListing | backend/app/adapters/immudb_adapter.py:268-273 | one revision that fails to convert fails the listing: code 500, no data, "Unexpected error with the vault: …" |
| Adapter.NoRevisionsKey | backend/app/adapters/immudb_adapter.py:228 | a reply without `revisions` lists no accounts, successfully |
| Adapter.NullRevisionsFailListing | backend/app/adapters/immudb_adapter.py:228 | a `null` revision list fails with 500 and "… 'NoneType' object is not iterable" |
| Adapter.NullDocumentFailsListing | backend/app/adapters/immudb_adapter.py:229-231 | a `null` document after revisions that convert fails with 500 and "… 'NoneType' object has no attribute 'get'" |
| Adapter.OperationResponsesConsistent | backend/app/adapters/immudb_adapter.py:165-210 | every response the operations build is consistent; a failure's code is 500 or the upstream one |
| Adapter.SandboxListing | backend/app/immudb/_sandbox_client.py:58-104 | listing the sandbox fixture gives the two fixture accounts, in order |
| Adapter.ImmuDBAdapter.constructor | backend/app/adapters/immudb_adapter.py:14-34 | stores the five arguments; the client is None |
| Adapter.ImmuDBAdapter.Connect | backend/app/adapters/immudb_adapter.py:36-53 | sandbox: fixed test client and no requests; otherwise the production client and the reconciliation's requests and error |
| Adapter.ImmuDBAdapter.CheckOrCreateCollection | backend/app/adapters/immudb_adapter.py:59-80 | raises exactly the reconciliation error, after the fetch and, on 404 only, one creation |
| Adapter.ImmuDBAdapter.CheckCollectionSchema | backend/app/adapters/immudb_adapter.py:83-94 | one fetch; raises what the reply and the diff give, in priority order |
| Adapter.ImmuDBAdapter.CreateCollection | backend/app/adapters/immudb_adapter.py:97-112 | one creation request with `account_schema`; raises the creation error |
| Adapter.ImmuDBAdapter.VerifyFields | backend/app/adapters/immudb_adapter.py:114-152 | the loop computes the schema diff `Diff`, including the KeyError cases |
| Adapter.ImmuDBAdapter.CountAccounts | backend/app/adapters/immudb_adapter.py:157-210 | before connect, the AttributeError failure; on the sandbox, success with 2; on production, `CountResult` of the vault's count reply |
| Adapter.ImmuDBAdapter.GetAccounts | backend/app/adapters/immudb_adapter.py:212-273 | the loop gives `GetResult` of the backend's reply; before connect, the AttributeError failure |
| Adapter.ImmuDBAdapter.SetAccounts | backend/app/adapters/immudb_adapter.py:275-333 | before connect, the AttributeError failure; on the sandbox, success with "36"; on production, `SetResult` of the vault's insertion reply |
| Adapter.SandboxScenario | backend/app/adapters/immudb_adapter.py:36-43 | in sandbox mode connect makes no request, count is 2, the listing is the fixture and the write gives "36" |
| Adapter.CreateOnNotFoundScenario | backend/app/adapters/immudb_adapter.py:68-73 | 404 then a confirmed creation connects after exactly a fetch and a creation |
| AdapterSingletons.ImmuDBAdapterSingleton.constructor | backend/app/adapters/immudb_adapter_singleton.py:10 | nothing is cached at first |
| AdapterSingletons.ImmuDBAdapterSingleton.GetInstance | backend/app/adapters/immudb_adapter_singleton.py:13-27 | cached: returned unchanged, nothing built; else a fresh adapter from the five arguments, cached only if connect succeeds, otherwise a 500 with the connect message and nothing cached; either way the factory then holds the client connect selected (the test values in sandbox mode, the production client from the arguments otherwise) |
| AdapterSingletons.RetryAfterFailure | backend/app/adapters/immudb_adapter_singleton.py:23-26 | a failed first call caches nothing, so a later call against a healthy vault connects |
| AdapterSingletons.FirstSuccessWins | backend/app/adapters/immudb_adapter_singleton.py:14-27 | after a success, later arguments are ignored and the same adapter returns |
| Utils.LowerChar | backend/app/utils.py:19 | a capital becomes the lower-case letter at the same alphabet position; every other character is unchanged |
| Utils.Lower | backend/app/utils.py:19 | same length, each character lower-cased |
| Utils.LowerIdempotent | backend/app/utils.py:19 | lower-casing twice is lower-casing once |
| Utils.StrToBool | backend/app/utils.py:1-19 | the helper itself; stated by the lemmas below |
| Utils.LowerEqualsIff | backend/app/utils.py:19 | lower-casing gives a word without capitals iff each character is the word's own or the capital 32 code points below its letter |
| Utils.StrToBoolMeaning | backend/app/utils.py:19 | true iff the text equals "1", "true", "yes" or "on" ignoring case, with case-insensitivity stated on code points and not through `LowerChar` |
| Utils.StrToBoolCaseInsensitive | backend/app/utils.py:19 | the result is that of the lower-cased text |
| Utils.StrToBoolIgnoresDefault | backend/app/utils.py:1-19 | the `default` argument never changes the result |
| Utils.StrToBoolAcceptsCaseVariants | backend/app/utils.py:19 | "TRUE", "Yes", "ON" and the settings default "1" give true |
| Utils.StrToBoolRejects | backend/app/utils.py:19 | " true", "" and "0" give false whatever the default; "false" gives false with default true |

## Left out

- The production HTTP client is I/O. Its answers are the input `VaultReplies`, one outcome per primitive.
  The httpx exceptions become `BackendError`.
- Async execution, `asyncio.sleep` and concurrency are left out; calls are sequential. This includes the
  unguarded race in `get_instance`, where two concurrent first calls can both connect.
- `deleteCollection` has no caller in the core. It is modelled as a primitive only.
- Pydantic's lax coercion between JSON types is not modelled: document values are already typed.
- Accounts.ValidationText: states only that the text names the rejected fields. Pydantic's own error
  text is not modelled, so the text after "Unexpected error with the vault: " in a failed listing is
  weaker than the source's.
- `amount` is a float. It is modelled as `real` and only compared with 1; the sandbox's integer 10 is
  10.0.
- Python's Unicode-aware `lower()` is modelled as ASCII lower-casing.
- Entries inside `fields` or `indexes` that lack a key, and payloads that are not dictionaries, are not
  modelled. Each entry is a typed record. This includes a revision that is itself `null`.
- `null` as the value of `fields` or `indexes` in the collection details is not modelled: those keys are
  present or absent. A `null` there would raise a TypeError that the model does not produce.
- `null` as the value of a key inside a document is the same as an absent key, as `.get` makes it; this
  is modelled.
- `Adapter.QuotedItems`: the repr of a list of strings does not model Python's escaping of quotes inside
  an item.
- The ghost log `startupRequests` records the primitives invoked during `connect` only. The operations
  change no adapter state.
- FastAPI routing, `main.py`, CORS and reading settings from the environment are left out. Of the
  settings, only the `str_to_bool` call on the sandbox flag is modelled.
