/**
 * The vault adapter: startup schema reconciliation (verify the collection's schema, or create the
 * collection when it does not exist) and the three account operations, each of which turns every
 * backend outcome into a uniform `Response`.
 */
module Adapter {
  import opened Wrappers
  import opened OperationTypes
  import opened Accounts
  import opened AdapterResponses
  import opened ApiClients
  import opened SandboxClients
  import opened Clients

  // ===========================================================================
  // Exceptions raised inside the adapter
  // ===========================================================================

  /** The exceptions that travel between the adapter's startup steps. */
  datatype Exc =
    | HttpStatusError(code: int)
    | RequestError(text: string)
    | ConnectionError(text: string)
    | KeyError(key: string)
    | OtherError(text: string)
  {
    /** `str(e)`; a status error is always handled before its text is needed. */
    function Str(): string
      requires !HttpStatusError?
    {
      match this
      case RequestError(t) => t
      case ConnectionError(t) => t
      case KeyError(k) => "'" + k + "'"
      case OtherError(t) => t
    }
  }

  /** The exception a failed backend call raises. */
  function ExcOf(e: BackendError): (x: Exc)
    ensures x.HttpStatusError? <==> e.HttpStatus?
    ensures e.HttpStatus? ==> x.code == e.code
    ensures !e.HttpStatus? ==> x.Str() == e.text
  {
    match e
    case HttpStatus(c) => HttpStatusError(c)
    case RequestErr(t) => RequestError(t)
    case Other(t) => OtherError(t)
  }

  /** Decimal text of an integer, as an f-string renders it. */
  function DecimalText(n: int): (s: string)
    ensures |s| > 0
    decreases if n < 0 then 1 - n else n
  {
    if n < 0 then "-" + DecimalText(-n)
    else if n < 10 then [DigitOf(n)]
    else DecimalText(n / 10) + [DigitOf(n % 10)]
  }

  /** Every character is a decimal digit. */
  predicate AllDigits(s: string)
  {
    forall i :: 0 <= i < |s| ==> '0' <= s[i] <= '9'
  }

  /** The number a string of decimal digits denotes, read most significant digit first. */
  function DigitsValue(s: string): int
    requires AllDigits(s)
  {
    if s == [] then 0 else 10 * DigitsValue(s[..|s| - 1]) + (s[|s| - 1] as int - '0' as int)
  }

  /**
   * The text reads back as the number: digits without a leading zero (only 0 itself starts with '0'),
   * behind a minus sign when the number is negative.
   */
  lemma {:induction false} DecimalTextMeaning(n: int)
    ensures var s := DecimalText(n);
      && (n >= 0 ==> AllDigits(s) && DigitsValue(s) == n && (s[0] == '0' ==> n == 0))
      && (n < 0 ==> |s| >= 2 && s[0] == '-' && AllDigits(s[1..]) && DigitsValue(s[1..]) == -n && s[1] != '0')
    decreases if n < 0 then 1 - n else n
  {
    var s := DecimalText(n);
    if n < 0 {
      DecimalTextMeaning(-n);
      assert s[1..] == DecimalText(-n);
    } else if n < 10 {
      DigitChar(n);
      assert s == [DigitOf(n)];
      assert s[..0] == [];
    } else {
      var q, d := n / 10, n % 10;
      var t := DecimalText(q);
      DecimalTextMeaning(q);
      DigitChar(d);
      assert s == t + [DigitOf(d)];
      assert s[..|s| - 1] == t;
      assert DigitsValue(s) == 10 * q + d;
    }
  }

  /** The digit character of a value 0..9. */
  function DigitOf(d: int): char
    requires 0 <= d < 10
  {
    "0123456789"[d]
  }

  /** A digit character is a digit, '0' only for 0, and reads back as its value. */
  lemma DigitChar(d: int)
    requires 0 <= d < 10
    ensures '0' <= DigitOf(d) <= '9' && DigitOf(d) as int - '0' as int == d
  {
  }

  /** The repr of a list of strings: `['a', 'b']`. */
  function ListRepr(items: seq<string>): (r: string)
    ensures |r| >= 2 && r[0] == '[' && r[|r| - 1] == ']'
    ensures r == "[]" <==> items == []
  {
    "[" + QuotedItems(items) + "]"
  }

  function QuotedItems(items: seq<string>): string
  {
    if items == [] then ""
    else if |items| == 1 then "'" + items[0] + "'"
    else "'" + items[0] + "', " + QuotedItems(items[1..])
  }

  // ===========================================================================
  // Schema verification: the findings of the schema diff
  // ===========================================================================

  /** The three findings of a schema diff. */
  datatype Findings = Findings(missingFields: seq<string>, typeMismatches: seq<string>, accountNumberUnique: bool)

  /** True iff a diff raises no schema error. */
  predicate Clean(f: Findings)
  {
    f.missingFields == [] && f.typeMismatches == [] && f.accountNumberUnique
  }

  /** The first observed field with the given name (the `next(...)` search), if any. */
  function FirstNamed(observed: seq<SchemaField>, name: string): Option<SchemaField>
  {
    if observed == [] then None
    else if observed[0].name == name then Some(observed[0])
    else FirstNamed(observed[1..], name)
  }

  /** The search finds nothing iff no field has the name, and otherwise the earliest field that has it. */
  lemma {:induction false} FirstNamedMeaning(observed: seq<SchemaField>, name: string)
    ensures var r := FirstNamed(observed, name);
      && (r.None? <==> forall i :: 0 <= i < |observed| ==> observed[i].name != name)
      && (r.Some? ==> exists i :: 0 <= i < |observed| && observed[i] == r.value && r.value.name == name
                                 && forall j :: 0 <= j < i ==> observed[j].name != name)
  {
    if observed != [] && observed[0].name != name {
      var tail := observed[1..];
      FirstNamedMeaning(tail, name);
      var r := FirstNamed(tail, name);
      if r.Some? {
        var i :| 0 <= i < |tail| && tail[i] == r.value && r.value.name == name
                 && forall j :: 0 <= j < i ==> tail[j].name != name;
        assert observed[i + 1] == r.value && forall j :: 0 <= j < i + 1 ==> observed[j].name != name;
      }
    }
  }

  /** An expected field with no observed field of its name. */
  predicate FieldMissing(f: SchemaField, observed: seq<SchemaField>)
  {
    FirstNamed(observed, f.name).None?
  }

  /** An expected field whose first same-named observed field has another type string. */
  predicate FieldMismatched(f: SchemaField, observed: seq<SchemaField>)
  {
    FirstNamed(observed, f.name).Some? && FirstNamed(observed, f.name).value.typ != f.typ
  }

  /** The text recorded for a type mismatch. */
  function MismatchText(name: string, expected: string, observed: string): string
  {
    "Field " + name + " type mismatch: " + expected + " != " + observed
  }

  /** The mismatch entry of a mismatched field. */
  function MismatchEntry(f: SchemaField, observed: seq<SchemaField>): string
    requires FieldMismatched(f, observed)
  {
    MismatchText(f.name, f.typ, FirstNamed(observed, f.name).value.typ)
  }

  /** The names of the missing expected fields, appended in the order of the expected fields. */
  function MissingFields(expected: seq<SchemaField>, observed: seq<SchemaField>): seq<string>
  {
    if expected == [] then []
    else
      var last := expected[|expected| - 1];
      MissingFields(expected[..|expected| - 1], observed) + (if FieldMissing(last, observed) then [last.name] else [])
  }

  /** The mismatch entries, appended in the order of the expected fields. */
  function TypeMismatches(expected: seq<SchemaField>, observed: seq<SchemaField>): seq<string>
  {
    if expected == [] then []
    else
      var last := expected[|expected| - 1];
      TypeMismatches(expected[..|expected| - 1], observed)
        + (if FieldMismatched(last, observed) then [MismatchEntry(last, observed)] else [])
  }

  /** Whether some index is exactly the single field `account_number` and is unique. */
  predicate AccountNumberUnique(indexes: seq<SchemaIndex>)
  {
    exists i :: 0 <= i < |indexes| && indexes[i].fields == ["account_number"] && indexes[i].isUnique
  }

  /**
   * The outcome of diffing observed details against a schema. A missing `fields` key raises at once;
   * a missing `indexes` key raises after the field comparison, before any finding is returned.
   */
  function Diff(details: CollectionDetails, model: CollectionSchema): (r: Result<Findings, Exc>)
    ensures r.Err? <==> details.fields.None? || details.indexes.None?
    ensures r.Err? ==> r.error == KeyError(if details.fields.None? then "fields" else "indexes")
  {
    if details.fields.None? then Err(KeyError("fields"))
    else if details.indexes.None? then Err(KeyError("indexes"))
    else Ok(Findings(MissingFields(model.fields, details.fields.value),
                     TypeMismatches(model.fields, details.fields.value),
                     AccountNumberUnique(details.indexes.value)))
  }

  /** The details document that describes a given schema. */
  function DetailsOf(s: CollectionSchema): CollectionDetails
  {
    CollectionDetails(Some(s.fields), Some(s.indexes))
  }

  // ---------------------------------------------------------------------------
  // Properties of the findings
  // ---------------------------------------------------------------------------

  /** A name is reported missing iff it is the name of an expected field that no observed field has. */
  lemma {:induction false} MissingFieldsMeaning(expected: seq<SchemaField>, observed: seq<SchemaField>, x: string)
    ensures x in MissingFields(expected, observed)
        <==> exists i :: 0 <= i < |expected| && expected[i].name == x && FieldMissing(expected[i], observed)
  {
    if expected != [] {
      var init := expected[..|expected| - 1];
      MissingFieldsMeaning(init, observed, x);
      assert forall i :: 0 <= i < |init| ==> init[i] == expected[i];
    }
  }

  /** A text is a mismatch entry iff it is the entry of some mismatched expected field. */
  lemma {:induction false} TypeMismatchesMeaning(expected: seq<SchemaField>, observed: seq<SchemaField>, x: string)
    ensures x in TypeMismatches(expected, observed)
        <==> exists i :: 0 <= i < |expected| && FieldMismatched(expected[i], observed) && x == MismatchEntry(expected[i], observed)
  {
    if expected != [] {
      var init := expected[..|expected| - 1];
      TypeMismatchesMeaning(init, observed, x);
      assert forall i :: 0 <= i < |init| ==> init[i] == expected[i];
    }
  }

  /** Both lists keep the order of the expected fields: the findings of a concatenation concatenate. */
  lemma {:induction false} FindingsConcatenate(a: seq<SchemaField>, b: seq<SchemaField>, observed: seq<SchemaField>)
    ensures MissingFields(a + b, observed) == MissingFields(a, observed) + MissingFields(b, observed)
    ensures TypeMismatches(a + b, observed) == TypeMismatches(a, observed) + TypeMismatches(b, observed)
    decreases |b|
  {
    if b == [] {
      assert a + b == a;
    } else {
      var b' := b[..|b| - 1];
      FindingsConcatenate(a, b', observed);
      assert (a + b)[..|a + b| - 1] == a + b';
      assert (a + b)[|a + b| - 1] == b[|b| - 1];
    }
  }

  /** Each expected field adds at most one entry to the two lists together, so they hold no more than there are expected fields. */
  lemma {:induction false} FindingsBounded(expected: seq<SchemaField>, observed: seq<SchemaField>)
    ensures |MissingFields(expected, observed)| + |TypeMismatches(expected, observed)| <= |expected|
  {
    if expected != [] {
      FindingsBounded(expected[..|expected| - 1], observed);
    }
  }

  /** The findings depend on the observed fields only through the first match of each expected name. */
  lemma {:induction false} FindingsDependOnFirstMatches(expected: seq<SchemaField>, o1: seq<SchemaField>, o2: seq<SchemaField>)
    requires forall i :: 0 <= i < |expected| ==> FirstNamed(o1, expected[i].name) == FirstNamed(o2, expected[i].name)
    ensures MissingFields(expected, o1) == MissingFields(expected, o2)
    ensures TypeMismatches(expected, o1) == TypeMismatches(expected, o2)
  {
    if expected != [] {
      var init := expected[..|expected| - 1];
      assert forall i :: 0 <= i < |init| ==> init[i] == expected[i];
      FindingsDependOnFirstMatches(init, o1, o2);
    }
  }

  /** An observed field whose name no expected field has is ignored, wherever it stands. */
  lemma ExtraFieldIgnored(expected: seq<SchemaField>, before: seq<SchemaField>, extra: SchemaField, after: seq<SchemaField>)
    requires forall i :: 0 <= i < |expected| ==> expected[i].name != extra.name
    ensures MissingFields(expected, before + [extra] + after) == MissingFields(expected, before + after)
    ensures TypeMismatches(expected, before + [extra] + after) == TypeMismatches(expected, before + after)
  {
    forall i | 0 <= i < |expected|
      ensures FirstNamed(before + [extra] + after, expected[i].name) == FirstNamed(before + after, expected[i].name)
    {
      FirstNamedSkips(before, extra, after, expected[i].name);
    }
    FindingsDependOnFirstMatches(expected, before + [extra] + after, before + after);
  }

  lemma {:induction false} FirstNamedSkips(before: seq<SchemaField>, extra: SchemaField, after: seq<SchemaField>, name: string)
    requires extra.name != name
    ensures FirstNamed(before + [extra] + after, name) == FirstNamed(before + after, name)
  {
    if before == [] {
      assert before + [extra] + after == [extra] + after;
      assert ([extra] + after)[0] == extra && ([extra] + after)[1..] == after;
      assert before + after == after;
    } else {
      FirstNamedSkips(before[1..], extra, after, name);
      assert (before + [extra] + after)[0] == before[0] && (before + after)[0] == before[0];
      assert (before + [extra] + after)[1..] == before[1..] + [extra] + after;
      assert (before + after)[1..] == before[1..] + after;
    }
  }

  /** Type strings are compared exactly: any other spelling, even `integer` for `INTEGER`, is a mismatch. */
  lemma TypeComparisonIsExact(f: SchemaField, t: string)
    requires t != f.typ
    ensures MissingFields([f], [SchemaField(f.name, t)]) == []
    ensures TypeMismatches([f], [SchemaField(f.name, t)]) == [MismatchText(f.name, f.typ, t)]
  {
    SingleFieldFindings(f, [SchemaField(f.name, t)]);
  }

  /** Only an exact single-field unique index counts: a composite or a non-unique index does not. */
  lemma UniqueIndexExamples()
    ensures AccountNumberUnique([SchemaIndex(["account_number"], true)])
    ensures !AccountNumberUnique([SchemaIndex(["account_number", "x"], true)])
    ensures !AccountNumberUnique([SchemaIndex(["account_number"], false)])
    ensures !AccountNumberUnique([])
  {
    var composite := [SchemaIndex(["account_number", "x"], true)];
    assert composite[0].fields != ["account_number"] by { assert |composite[0].fields| == 2; }
    assert AccountNumberUnique([SchemaIndex(["account_number"], true)]) by {
      var ix := [SchemaIndex(["account_number"], true)];
      assert ix[0].fields == ["account_number"] && ix[0].isUnique;
    }
  }

  /** Each expected field is the first observed field of its name. */
  predicate AllMatch(expected: seq<SchemaField>, observed: seq<SchemaField>)
  {
    forall i :: 0 <= i < |expected| ==> FirstNamed(observed, expected[i].name) == Some(expected[i])
  }

  /** When every expected field finds itself, nothing is missing and nothing mismatches. */
  lemma {:induction false} FindingsNoneWhenAllMatch(expected: seq<SchemaField>, observed: seq<SchemaField>)
    requires AllMatch(expected, observed)
    ensures MissingFields(expected, observed) == [] && TypeMismatches(expected, observed) == []
  {
    if expected != [] {
      var init := expected[..|expected| - 1];
      assert forall i :: 0 <= i < |init| ==> init[i] == expected[i];
      FindingsNoneWhenAllMatch(init, observed);
    }
  }

  /** In a list of distinct names, each field is the first with its name. */
  lemma FirstNamedOfDistinct(fs: seq<SchemaField>, k: nat)
    requires k < |fs|
    requires DistinctNames(fs)
    ensures FirstNamed(fs, fs[k].name) == Some(fs[k])
  {
    FirstNamedMeaning(fs, fs[k].name);
    var r := FirstNamed(fs, fs[k].name);
    var i :| 0 <= i < |fs| && fs[i] == r.value && r.value.name == fs[k].name
             && forall j :: 0 <= j < i ==> fs[j].name != fs[k].name;
  }

  /** A schema whose field names are distinct, diffed against its own fields, has no findings. */
  lemma SelfDiffClean(fs: seq<SchemaField>)
    requires DistinctNames(fs)
    ensures MissingFields(fs, fs) == [] && TypeMismatches(fs, fs) == []
  {
    forall k | 0 <= k < |fs|
      ensures FirstNamed(fs, fs[k].name) == Some(fs[k])
    {
      FirstNamedOfDistinct(fs, k);
    }
    FindingsNoneWhenAllMatch(fs, fs);
  }

  /** The expected schema diffed against itself has no findings. */
  lemma AccountSchemaAgreesWithItself()
    ensures Diff(DetailsOf(AccountSchema), AccountSchema) == Ok(Findings([], [], true))
  {
    AccountSchemaShape();
    SelfDiffClean(AccountSchema.fields);
    assert AccountSchema.indexes[0].fields == ["account_number"] && AccountSchema.indexes[0].isUnique;
  }

  /** The sandbox's collection details have no findings: extra fields and extra indexes are ignored. */
  lemma SandboxDetailsAreClean()
    ensures Diff(SandboxDetails, AccountSchema) == Ok(Findings([], [], true))
  {
    var fs := AccountSchema.fields;
    var obs := SandboxDetails.fields.value;
    assert obs == [obs[0], obs[1]] + fs;
    forall i | 0 <= i < 6
      ensures FirstNamed(obs, fs[i].name) == FirstNamed(fs, fs[i].name)
    {
      FirstNamedSkips([], obs[0], [obs[1]] + fs, fs[i].name);
      FirstNamedSkips([], obs[1], fs, fs[i].name);
      assert [] + [obs[0]] + ([obs[1]] + fs) == obs;
    }
    AccountSchemaAgreesWithItself();
    FindingsDependOnFirstMatches(fs, obs, fs);
    var ix := SandboxDetails.indexes.value;
    assert ix[2].fields == ["account_number"] && ix[2].isUnique;
  }

  // ===========================================================================
  // Startup reconciliation: the decisions, as functions of the backend's replies
  // ===========================================================================

  /** The messages startup reconciliation raises. */
  const Unavailable: string := "The vault is not available."
  const UnavailablePrefix: string := "The vault is not available. "
  const MissingFieldsPrefix: string := "Collection schema error: missing fields: "
  const TypeMismatchesPrefix: string := "Collection schema error: type mismatches: "
  const NotUniqueText: string := "Collection schema error: the field account_number is not unique."

  /** The schema error a clean or unclean diff raises, checking missing fields, then types, then uniqueness. */
  function SchemaError(f: Findings): (r: Option<string>)
    ensures r.None? <==> Clean(f)
  {
    if f.missingFields != [] then Some(MissingFieldsPrefix + ListRepr(f.missingFields))
    else if f.typeMismatches != [] then Some(TypeMismatchesPrefix + ListRepr(f.typeMismatches))
    else if !f.accountNumberUnique then Some(NotUniqueText)
    else None
  }

  /** What checking the schema raises, given the reply to the details request. */
  function SchemaCheckRaises(details: Outcome<CollectionDetails>): (r: Option<Exc>)
    ensures r.Some? && r.value.HttpStatusError? <==> details.Raised? && details.err.HttpStatus?
  {
    match details
    case Raised(e) => Some(ExcOf(e))
    case Replied(d) =>
      match Diff(d, AccountSchema)
      case Err(e) => Some(e)
      case Ok(f) => if SchemaError(f).Some? then Some(ConnectionError(SchemaError(f).value)) else None
  }

  /** What creating the collection raises (its message), given the reply to the creation request. */
  function CreationError(create: Outcome<bool>): (r: Option<string>)
    ensures r.None? <==> create == Replied(true)
  {
    match create
    case Replied(confirmed) => if confirmed then None else Some(Unavailable)
    case Raised(HttpStatus(c)) =>
      if c == 402 then Some("Collection creation requires a payment.")
      else Some("Failed to create the collection in the vault. " + DecimalText(c))
    case Raised(_) => Some(Unavailable)
  }

  /**
   * The message of the ConnectionError reconciliation raises, or None. Startup succeeds iff the
   * fetched schema is clean, or the collection was not found and its creation was confirmed.
   */
  function ReconcileError(collectionName: string, details: Outcome<CollectionDetails>, create: Outcome<bool>): (r: Option<string>)
    ensures r.None? <==>
      || (details.Replied? && Diff(details.value, AccountSchema).Ok? && Clean(Diff(details.value, AccountSchema).value))
      || (details == Raised(HttpStatus(404)) && create == Replied(true))
  {
    var raised := SchemaCheckRaises(details);
    if raised.None? then None
    else if raised.value.HttpStatusError? then
      if raised.value.code == 404 then CreationError(create)
      else Some("Collection " + collectionName + " is not available in the vault.")
    else Some(UnavailablePrefix + raised.value.Str())
  }

  /** The primitives reconciliation calls: the details fetch, then a creation only after a 404. */
  function ReconcileRequests(collectionName: string, details: Outcome<CollectionDetails>): seq<Request>
  {
    [GetCollectionDetails(collectionName)]
    + (if details == Raised(HttpStatus(404)) then [CreateCollection(collectionName, AccountSchema)] else [])
  }

  /** The message `connect` raises: none in sandbox mode, the reconciliation's otherwise. */
  function ConnectError(sandbox: bool, collectionName: string, vault: VaultReplies): Option<string>
  {
    if sandbox then None else ReconcileError(collectionName, vault.details, vault.create)
  }

  /** How many of the requests create a collection. */
  function CreationCount(rs: seq<Request>): nat
  {
    if rs == [] then 0 else (if rs[0].CreateCollection? then 1 else 0) + CreationCount(rs[1..])
  }

  // ---------------------------------------------------------------------------
  // Properties of reconciliation
  // ---------------------------------------------------------------------------

  /** A 404 on the details fetch leads to exactly one creation, of the expected schema; any other reply to none. */
  lemma CreationOnlyAfterNotFound(collectionName: string, details: Outcome<CollectionDetails>)
    ensures CreationCount(ReconcileRequests(collectionName, details)) == (if details == Raised(HttpStatus(404)) then 1 else 0)
    ensures forall r :: r in ReconcileRequests(collectionName, details) && r.CreateCollection? ==>
              r == CreateCollection(collectionName, AccountSchema)
  {
    var rs := ReconcileRequests(collectionName, details);
    var tail := if details == Raised(HttpStatus(404)) then [CreateCollection(collectionName, AccountSchema)] else [];
    assert rs[0] == GetCollectionDetails(collectionName) && rs[1..] == tail;
    if details == Raised(HttpStatus(404)) {
      assert tail[0].CreateCollection? && tail[1..] == [];
      assert CreationCount(tail) == 1;
    }
  }

  /** Any status other than 404 on the fetch makes the collection unavailable, without a creation attempt. */
  lemma OtherStatusMeansUnavailable(collectionName: string, code: int, create: Outcome<bool>)
    requires code != 404
    ensures ReconcileError(collectionName, Raised(HttpStatus(code)), create)
            == Some("Collection " + collectionName + " is not available in the vault.")
    ensures ReconcileRequests(collectionName, Raised(HttpStatus(code))) == [GetCollectionDetails(collectionName)]
  {
  }

  /** After a 404, the creation reply decides: 402, another status, an unconfirmed or failed call, or success. */
  lemma CreationFailureMessages(collectionName: string, code: int, text: string)
    ensures ReconcileError(collectionName, Raised(HttpStatus(404)), Raised(HttpStatus(402)))
            == Some("Collection creation requires a payment.")
    ensures code != 402 ==>
              ReconcileError(collectionName, Raised(HttpStatus(404)), Raised(HttpStatus(code)))
              == Some("Failed to create the collection in the vault. " + DecimalText(code))
    ensures ReconcileError(collectionName, Raised(HttpStatus(404)), Replied(false)) == Some("The vault is not available.")
    ensures ReconcileError(collectionName, Raised(HttpStatus(404)), Raised(RequestErr(text))) == Some("The vault is not available.")
    ensures ReconcileError(collectionName, Raised(HttpStatus(404)), Raised(Other(text))) == Some("The vault is not available.")
    ensures ReconcileError(collectionName, Raised(HttpStatus(404)), Replied(true)) == None
  {
  }

  /** A transport or other failure of the fetch is re-wrapped with its text. */
  lemma FetchFailureRewrapped(collectionName: string, text: string, create: Outcome<bool>)
    ensures ReconcileError(collectionName, Raised(RequestErr(text)), create) == Some("The vault is not available. " + text)
    ensures ReconcileError(collectionName, Raised(Other(text)), create) == Some("The vault is not available. " + text)
  {
  }

  /** A details document without `fields` or `indexes` fails with the missing key named. */
  lemma MalformedDetails(collectionName: string, fs: seq<SchemaField>, create: Outcome<bool>)
    ensures ReconcileError(collectionName, Replied(CollectionDetails(None, None)), create)
            == Some("The vault is not available. 'fields'")
    ensures ReconcileError(collectionName, Replied(CollectionDetails(Some(fs), None)), create)
            == Some("The vault is not available. 'indexes'")
  {
    assert KeyError("fields").Str() == "'fields'" && KeyError("indexes").Str() == "'indexes'";
    assert "The vault is not available. " + "'fields'" == "The vault is not available. 'fields'";
    assert "The vault is not available. " + "'indexes'" == "The vault is not available. 'indexes'";
  }

  /** A well-formed details reply fails reconciliation exactly with its schema error, re-wrapped. */
  lemma SchemaFailureRewrapped(collectionName: string, d: CollectionDetails, create: Outcome<bool>)
    requires d.fields.Some? && d.indexes.Some?
    ensures var f := Diff(d, AccountSchema).value;
      ReconcileError(collectionName, Replied(d), create)
      == if Clean(f) then None else Some(UnavailablePrefix + SchemaError(f).value)
  {
  }

  /** No two fields share a name. */
  predicate DistinctNames(fs: seq<SchemaField>)
  {
    forall i, j :: 0 <= i < j < |fs| ==> fs[i].name != fs[j].name
  }

  /** The findings for one expected field. */
  lemma SingleFieldFindings(f: SchemaField, observed: seq<SchemaField>)
    ensures MissingFields([f], observed) == if FieldMissing(f, observed) then [f.name] else []
    ensures TypeMismatches([f], observed) == if FieldMismatched(f, observed) then [MismatchEntry(f, observed)] else []
  {
    assert [f][..0] == [];
  }

  /** The findings of a list split around one field, the rest of which all match. */
  lemma FindingsAroundOne(before: seq<SchemaField>, f: SchemaField, after: seq<SchemaField>, observed: seq<SchemaField>)
    requires AllMatch(before, observed) && AllMatch(after, observed)
    ensures MissingFields(before + [f] + after, observed) == MissingFields([f], observed)
    ensures TypeMismatches(before + [f] + after, observed) == TypeMismatches([f], observed)
  {
    FindingsNoneWhenAllMatch(before, observed);
    FindingsNoneWhenAllMatch(after, observed);
    FindingsConcatenate(before + [f], after, observed);
    FindingsConcatenate(before, [f], observed);
  }

  /** Leaving one field out keeps the names distinct and the others in order. */
  lemma DropKeepsOrder(fs: seq<SchemaField>, k: nat)
    requires k < |fs| && DistinctNames(fs)
    ensures var obs := fs[..k] + fs[k + 1..];
      DistinctNames(obs) && |obs| == |fs| - 1
      && (forall i :: 0 <= i < k ==> obs[i] == fs[i])
      && (forall i :: k <= i < |obs| ==> obs[i] == fs[i + 1])
      && (forall i :: 0 <= i < |obs| ==> obs[i].name != fs[k].name)
  {
    var obs := fs[..k] + fs[k + 1..];
    assert forall i :: 0 <= i < |obs| ==> obs[i] == fs[if i < k then i else i + 1];
  }

  /** After leaving one field out, every other field still finds itself first, and the left-out one is missing. */
  lemma DropMatches(fs: seq<SchemaField>, k: nat)
    requires k < |fs| && DistinctNames(fs)
    ensures var obs := fs[..k] + fs[k + 1..];
      AllMatch(fs[..k], obs) && AllMatch(fs[k + 1..], obs)
      && FieldMissing(fs[k], obs)
  {
    var obs := fs[..k] + fs[k + 1..];
    DropKeepsOrder(fs, k);
    FirstNamedMeaning(obs, fs[k].name);
    var before, after := fs[..k], fs[k + 1..];
    forall i | 0 <= i < |before|
      ensures FirstNamed(obs, before[i].name) == Some(before[i])
    {
      FirstNamedOfDistinct(obs, i);
    }
    forall i | 0 <= i < |after|
      ensures FirstNamed(obs, after[i].name) == Some(after[i])
    {
      FirstNamedOfDistinct(obs, k + i);
    }
  }

  /** After retyping one field, every other field still finds itself first, and the retyped one mismatches. */
  lemma RetypeMatches(fs: seq<SchemaField>, k: nat, t: string)
    requires k < |fs| && t != fs[k].typ && DistinctNames(fs)
    ensures var obs := fs[k := SchemaField(fs[k].name, t)];
      AllMatch(fs[..k], obs) && AllMatch(fs[k + 1..], obs)
      && FirstNamed(obs, fs[k].name) == Some(SchemaField(fs[k].name, t))
  {
    var obs := fs[k := SchemaField(fs[k].name, t)];
    assert DistinctNames(obs) by {
      assert forall i :: 0 <= i < |obs| ==> obs[i].name == fs[i].name;
    }
    var before, after := fs[..k], fs[k + 1..];
    forall i | 0 <= i < |before|
      ensures FirstNamed(obs, before[i].name) == Some(before[i])
    {
      FirstNamedOfDistinct(obs, i);
    }
    forall i | 0 <= i < |after|
      ensures FirstNamed(obs, after[i].name) == Some(after[i])
    {
      FirstNamedOfDistinct(obs, k + 1 + i);
    }
    FirstNamedOfDistinct(obs, k);
  }

  /** When every field but the k-th finds itself, the findings are the k-th field's alone. */
  lemma FindingsOfSplit(fs: seq<SchemaField>, k: nat, observed: seq<SchemaField>)
    requires k < |fs| && AllMatch(fs[..k], observed) && AllMatch(fs[k + 1..], observed)
    ensures MissingFields(fs, observed) == MissingFields([fs[k]], observed)
    ensures TypeMismatches(fs, observed) == TypeMismatches([fs[k]], observed)
  {
    FindingsAroundOne(fs[..k], fs[k], fs[k + 1..], observed);
    assert fs[..k] + [fs[k]] + fs[k + 1..] == fs;
  }

  /** Against distinct expected fields, leaving out one observed field reports exactly that one as missing. */
  lemma DropOneField(fs: seq<SchemaField>, k: nat)
    requires k < |fs| && DistinctNames(fs)
    ensures MissingFields(fs, fs[..k] + fs[k + 1..]) == [fs[k].name]
    ensures TypeMismatches(fs, fs[..k] + fs[k + 1..]) == []
  {
    var obs := fs[..k] + fs[k + 1..];
    DropMatches(fs, k);
    FindingsOfSplit(fs, k, obs);
    SingleFieldFindings(fs[k], obs);
  }

  /** Against distinct expected fields, retyping one observed field reports exactly that one mismatch. */
  lemma RetypeOneField(fs: seq<SchemaField>, k: nat, t: string)
    requires k < |fs| && t != fs[k].typ && DistinctNames(fs)
    ensures MissingFields(fs, fs[k := SchemaField(fs[k].name, t)]) == []
    ensures TypeMismatches(fs, fs[k := SchemaField(fs[k].name, t)]) == [MismatchText(fs[k].name, fs[k].typ, t)]
  {
    var obs := fs[k := SchemaField(fs[k].name, t)];
    RetypeMatches(fs, k, t);
    FindingsOfSplit(fs, k, obs);
    SingleFieldFindings(fs[k], obs);
  }

  /** Any one expected field left out of the reply: the failure names exactly that field. */
  lemma MissingFieldReported(collectionName: string, k: nat, create: Outcome<bool>)
    requires k < 6
    ensures var fs := AccountSchema.fields;
      ReconcileError(collectionName, Replied(CollectionDetails(Some(fs[..k] + fs[k + 1..]), Some(AccountSchema.indexes))), create)
      == Some(UnavailablePrefix + (MissingFieldsPrefix + ListRepr([fs[k].name])))
  {
    var fs := AccountSchema.fields;
    AccountSchemaShape();
    DropOneField(fs, k);
    SchemaFailureRewrapped(collectionName, CollectionDetails(Some(fs[..k] + fs[k + 1..]), Some(AccountSchema.indexes)), create);
  }

  /** Any one expected field reported with another type: the failure cites exactly that mismatch. */
  lemma WrongTypeReported(collectionName: string, k: nat, t: string, create: Outcome<bool>)
    requires k < 6 && t != AccountSchema.fields[k].typ
    ensures var fs := AccountSchema.fields;
      ReconcileError(collectionName, Replied(CollectionDetails(Some(fs[k := SchemaField(fs[k].name, t)]), Some(AccountSchema.indexes))), create)
      == Some(UnavailablePrefix + (TypeMismatchesPrefix + ListRepr([MismatchText(fs[k].name, fs[k].typ, t)])))
  {
    var fs := AccountSchema.fields;
    AccountSchemaShape();
    RetypeOneField(fs, k, t);
    SchemaFailureRewrapped(collectionName, CollectionDetails(Some(fs[k := SchemaField(fs[k].name, t)]), Some(AccountSchema.indexes)), create);
  }

  /** The right fields but no unique index on `account_number`: the failure cites uniqueness. */
  lemma MissingUniqueIndexReported(collectionName: string, create: Outcome<bool>)
    ensures ReconcileError(collectionName, Replied(CollectionDetails(Some(AccountSchema.fields), Some([]))), create)
            == Some(UnavailablePrefix + NotUniqueText)
  {
    AccountSchemaAgreesWithItself();
    SchemaFailureRewrapped(collectionName, CollectionDetails(Some(AccountSchema.fields), Some([])), create);
  }

  /** Missing fields are reported before type mismatches, and those before uniqueness. */
  lemma SchemaErrorPriority(f: Findings)
    ensures f.missingFields != [] ==> SchemaError(f) == Some(MissingFieldsPrefix + ListRepr(f.missingFields))
    ensures f.missingFields == [] && f.typeMismatches != [] ==>
              SchemaError(f) == Some(TypeMismatchesPrefix + ListRepr(f.typeMismatches))
  {
  }

  /** A production vault that answers with the sandbox's details is accepted without a creation. */
  lemma SandboxDetailsAccepted(collectionName: string, vault: VaultReplies)
    requires vault.details == Replied(SandboxDetails)
    ensures ConnectError(false, collectionName, vault) == None
    ensures CreationCount(ReconcileRequests(collectionName, vault.details)) == 0
  {
    SandboxDetailsAreClean();
    CreationOnlyAfterNotFound(collectionName, vault.details);
  }

  // ===========================================================================
  // The account operations: backend outcome to uniform response
  // ===========================================================================

  /** The three operations; their status-code tables differ. */
  datatype Operation = CountOp | GetOp | SetOp

  const InvalidVaultResponse: string := "Error: The response obtained from the vault is invalid."

  const Unreachable: string := "Vault is unreachable."

  const UnexpectedPrefix: string := "Unexpected error with the vault: "

  const UnknownStatus: string := "Vault unknown error."

  /** The message an operation gives for an HTTP status error with the given code. */
  function StatusMessage(op: Operation, code: int): string
  {
    if code == 400 then "Vault: Request validation exception"
    else if code == 402 then "Vault: Payment required"
    else if code == 403 then "Vault: Forbidden"
    else if code == 404 && op == CountOp then "Vault: Not found"
    else if code == 409 && op == SetOp then "Vault: Conflict"
    else if code == 413 && op == SetOp then "Vault: Document too big"
    else if code == 500 then "Vault: Internal server error"
    else UnknownStatus
  }

  /** The status tables as a map, row by row: the reference the if-chains are checked against. */
  function MessageTable(op: Operation): map<int, string>
  {
    var common := map[400 := "Vault: Request validation exception", 402 := "Vault: Payment required",
                      403 := "Vault: Forbidden", 500 := "Vault: Internal server error"];
    match op
    case CountOp => common[404 := "Vault: Not found"]
    case GetOp => common
    case SetOp => common[409 := "Vault: Conflict"][413 := "Vault: Document too big"]
  }

  /** The response an operation gives for a failed backend call. */
  function ErrorResponse<T>(op: Operation, e: BackendError): (r: Response<T>)
    ensures !r.status && r.data.None? && r.error != ""
    ensures e.HttpStatus? ==> r.code == e.code && r.error == StatusMessage(op, e.code)
    ensures e.RequestErr? ==> r.code == 500 && r.error == Unreachable
    ensures e.Other? ==> r.code == 500 && r.error == UnexpectedPrefix + e.text
  {
    match e
    case HttpStatus(c) => Failure(StatusMessage(op, c), c)
    case RequestErr(_) => Failure(Unreachable, 500)
    case Other(t) => Failure(UnexpectedPrefix + t, 500)
  }

  /**
   * count_accounts over a backend outcome: succeeds iff the reply has a `count` key, whose value
   * (None for `null`) becomes the data.
   */
  function CountResult(o: Outcome<CountPayload>): (r: Response<int>)
    ensures Consistent(r)
    ensures r.status <==> o.Replied? && !o.value.count.Absent?
    ensures r.status ==> r.data == o.value.count.Held()
    ensures o.Replied? && o.value.count.Absent? ==> r == Failure(InvalidVaultResponse, 500)
    ensures o.Raised? ==> r == ErrorResponse(CountOp, o.err)
  {
    match o
    case Replied(p) => if p.count.Absent? then Failure(InvalidVaultResponse, 500) else Response(data := p.count.Held())
    case Raised(e) => ErrorResponse(CountOp, e)
  }

  /**
   * set_accounts over a backend outcome: succeeds iff the reply has a `transactionId` key, whose value
   * (None for `null`) becomes the data.
   */
  function SetResult(o: Outcome<SetPayload>): (r: Response<string>)
    ensures Consistent(r)
    ensures r.status <==> o.Replied? && !o.value.transactionId.Absent?
    ensures r.status ==> r.data == o.value.transactionId.Held()
    ensures o.Replied? && o.value.transactionId.Absent? ==> r == Failure(InvalidVaultResponse, 500)
    ensures o.Raised? ==> r == ErrorResponse(SetOp, o.err)
  {
    match o
    case Replied(p) =>
      if p.transactionId.Absent? then Failure(InvalidVaultResponse, 500) else Response(data := p.transactionId.Held())
    case Raised(e) => ErrorResponse(SetOp, e)
  }

  /**
   * Converts the items one at a time: the first item that fails ends the whole conversion with its
   * error, otherwise one result per item, in order.
   */
  function ConvertAll<X, A>(xs: seq<X>, convert: X -> Result<A, string>): (r: Result<seq<A>, string>)
    ensures r.Ok? <==> forall i :: 0 <= i < |xs| ==> convert(xs[i]).Ok?
    ensures r.Ok? ==> |r.value| == |xs| && forall i :: 0 <= i < |xs| ==> Ok(r.value[i]) == convert(xs[i])
    ensures r.Err? ==> exists i :: 0 <= i < |xs| && Err(r.error) == convert(xs[i])
                                   && forall j :: 0 <= j < i ==> convert(xs[j]).Ok?
  {
    if xs == [] then Ok([])
    else
      var init := xs[..|xs| - 1];
      assert forall i :: 0 <= i < |init| ==> init[i] == xs[i];
      match ConvertAll(init, convert)
      case Err(e) => Err(e)
      case Ok(done) =>
        match convert(xs[|xs| - 1])
        case Err(e) => Err(e)
        case Ok(a) => Ok(done + [a])
  }

  /** The account a revision's document describes, or the error reading or validating it raises. */
  function ParseRevision(r: Revision): Result<Account, string>
  {
    match DocumentOf(r)
    case Err(e) => Err(e)
    case Ok(d) => ValidateAccount(d)
  }

  /** The accounts of a list of revisions, or the first revision's error. */
  function ParseRevisions(revisions: seq<Revision>): Result<seq<Account>, string>
  {
    ConvertAll(revisions, ParseRevision)
  }

  /** The accounts of a search reply, or the error walking its revisions raises. */
  function Listing(p: DataPayload): Result<seq<Account>, string>
  {
    match RevisionsOf(p)
    case Err(e) => Err(e)
    case Ok(revisions) => ParseRevisions(revisions)
  }

  /** get_accounts over a backend outcome. */
  function GetResult(o: Outcome<DataPayload>): (r: Response<seq<Account>>)
    ensures Consistent(r)
    ensures r.status <==> o.Replied? && Listing(o.value).Ok?
    ensures r.status ==> r.data == Some(Listing(o.value).value)
    ensures o.Replied? && Listing(o.value).Err? ==> r == Failure(UnexpectedPrefix + Listing(o.value).error, 500)
    ensures o.Raised? ==> r == ErrorResponse(GetOp, o.err)
  {
    match o
    case Replied(p) =>
      (match Listing(p)
       case Ok(accounts) => Success(accounts)
       case Err(e) => ErrorResponse(GetOp, Other(e)))
    case Raised(e) => ErrorResponse(GetOp, e)
  }

  /** One more item: the conversion of the longer prefix extends the shorter one's, or stops at the item. */
  lemma ConvertStep<X, A>(xs: seq<X>, convert: X -> Result<A, string>, i: nat, done: seq<A>)
    requires i < |xs| && ConvertAll(xs[..i], convert) == Ok(done)
    ensures convert(xs[i]).Ok? ==> ConvertAll(xs[..i + 1], convert) == Ok(done + [convert(xs[i]).value])
    ensures convert(xs[i]).Err? ==> ConvertAll(xs[..i + 1], convert) == Err(convert(xs[i]).error)
  {
    var next := xs[..i + 1];
    assert next[..|next| - 1] == xs[..i] && next[|next| - 1] == xs[i];
  }

  /** An error on a prefix of the items is the error of the whole conversion. */
  lemma {:induction false} ConvertErrorPersists<X, A>(xs: seq<X>, convert: X -> Result<A, string>, k: nat)
    requires k <= |xs|
    requires ConvertAll(xs[..k], convert).Err?
    ensures ConvertAll(xs, convert) == ConvertAll(xs[..k], convert)
    decreases |xs| - k
  {
    if k < |xs| {
      var next := xs[..k + 1];
      assert next[..k] == xs[..k];
      assert next[..|next| - 1] == xs[..k];
      ConvertErrorPersists(xs, convert, k + 1);
    } else {
      assert xs[..k] == xs;
    }
  }

  // ---------------------------------------------------------------------------
  // Properties of the operations
  // ---------------------------------------------------------------------------

  /** The if-chains give exactly the status tables, and "Vault unknown error." off the table. */
  lemma StatusMessagesFollowTables(op: Operation, code: int)
    ensures StatusMessage(op, code) == if code in MessageTable(op) then MessageTable(op)[code] else UnknownStatus
  {
  }

  /** Count and list differ only at 404, which the list operation does not recognise. */
  lemma CountAndGetTablesDiffer(code: int)
    ensures StatusMessage(CountOp, code) != StatusMessage(GetOp, code) <==> code == 404
    ensures StatusMessage(GetOp, 404) == UnknownStatus
  {
  }

  /** Count and create differ exactly at 404, 409 and 413. */
  lemma CountAndSetTablesDiffer(code: int)
    ensures StatusMessage(CountOp, code) != StatusMessage(SetOp, code) <==> code == 404 || code == 409 || code == 413
  {
  }

  /** Every HTTP status error keeps its upstream code, for all three operations. */
  lemma StatusCodePreserved(code: int)
    ensures var c := CountResult(Raised(HttpStatus(code)));
      !c.status && c.code == code && c.error == StatusMessage(CountOp, code)
    ensures var g := GetResult(Raised(HttpStatus(code)));
      !g.status && g.code == code && g.error == StatusMessage(GetOp, code)
    ensures var s := SetResult(Raised(HttpStatus(code)));
      !s.status && s.code == code && s.error == StatusMessage(SetOp, code)
  {
  }

  /** A successful listing holds one valid account per revision, in order, each its document's own. */
  lemma ListedAccountsMatchRevisions(p: DataPayload)
    requires GetResult(Replied(p)).status
    ensures RevisionsOf(p).Ok?
    ensures var revisions := RevisionsOf(p).value;
      var accounts := GetResult(Replied(p)).data.value;
      |accounts| == |revisions|
      && forall i :: 0 <= i < |accounts| ==>
           ValidAccount(accounts[i]) && DocumentOf(revisions[i]) == Ok(ToDocument(accounts[i]))
  {
    var revisions := RevisionsOf(p).value;
    var accounts := GetResult(Replied(p)).data.value;
    forall i | 0 <= i < |accounts|
      ensures ValidAccount(accounts[i]) && DocumentOf(revisions[i]) == Ok(ToDocument(accounts[i]))
    {
      assert Ok(accounts[i]) == ParseRevision(revisions[i]);
      ValidateAccountMeaning(DocumentOf(revisions[i]).value);
    }
  }

  /** One revision that fails to convert fails the whole listing with code 500 and no partial list. */
  lemma InvalidDocumentFailsListing(p: DataPayload, k: nat)
    requires RevisionsOf(p).Ok? && k < |RevisionsOf(p).value| && ParseRevision(RevisionsOf(p).value[k]).Err?
    ensures var r := GetResult(Replied(p));
      !r.status && r.code == 500 && r.data.None? && |r.error| > |UnexpectedPrefix|
      && r.error[..|UnexpectedPrefix|] == UnexpectedPrefix
  {
  }

  /** A search reply without `revisions` lists no accounts, successfully. */
  lemma NoRevisionsKey()
    ensures GetResult(Replied(DataPayload(Absent))) == Success([])
  {
  }

  /** A `null` revision list is not iterable: the listing fails with 500 and the TypeError text. */
  lemma NullRevisionsFailListing()
    ensures GetResult(Replied(DataPayload(Null))) == Failure(UnexpectedPrefix + NotIterable, 500)
  {
  }

  /**
   * A `null` document behind revisions that all convert fails the listing with the AttributeError
   * of its first `.get`.
   */
  lemma NullDocumentFailsListing(p: DataPayload, k: nat)
    requires RevisionsOf(p).Ok? && k < |RevisionsOf(p).value|
    requires RevisionsOf(p).value[k].document.Null?
    requires forall j :: 0 <= j < k ==> ParseRevision(RevisionsOf(p).value[j]).Ok?
    ensures GetResult(Replied(p)) == Failure(UnexpectedPrefix + NoAttribute("get"), 500)
  {
    var revisions := RevisionsOf(p).value;
    var r := ParseRevisions(revisions);
    assert r.Err?;
    var i :| 0 <= i < |revisions| && Err(r.error) == ParseRevision(revisions[i])
             && forall j :: 0 <= j < i ==> ParseRevision(revisions[j]).Ok?;
    assert i == k;
  }

  /** A `null` count or transaction id is a key that is present: the call succeeds with no data. */
  lemma NullValuesSucceedEmpty()
    ensures CountResult(Replied(CountPayload(Null))) == Response(data := None)
    ensures SetResult(Replied(SetPayload(Null))) == Response(data := None)
  {
  }

  /** Every response the three operations build is consistent, and a failure's code is 500 or the upstream one. */
  lemma OperationResponsesConsistent(c: Outcome<CountPayload>, g: Outcome<DataPayload>, s: Outcome<SetPayload>)
    ensures Consistent(CountResult(c)) && Consistent(GetResult(g)) && Consistent(SetResult(s))
    ensures !CountResult(c).status ==> CountResult(c).code == 500 || c == Raised(HttpStatus(CountResult(c).code))
    ensures !GetResult(g).status ==> GetResult(g).code == 500 || g == Raised(HttpStatus(GetResult(g).code))
    ensures !SetResult(s).status ==> SetResult(s).code == 500 || s == Raised(HttpStatus(SetResult(s).code))
  {
  }

  /** The listing of the sandbox's search fixture: the two fixture accounts, in order. */
  lemma SandboxListing(collectionName: string, page: int, count: int)
    ensures GetResult(Replied(SandboxGetData(collectionName, page, count)))
            == Success([SandboxAccount(1234), SandboxAccount(12345)])
  {
    var revs := RevisionsOf(SandboxData).value;
    assert |revs| == 2 && DocumentOf(revs[0]) == Ok(SandboxDocument(1234)) && DocumentOf(revs[1]) == Ok(SandboxDocument(12345));
    SandboxDocumentsValid(1234);
    SandboxDocumentsValid(12345);
    var r := ParseRevisions(revs);
    assert ParseRevision(revs[0]) == Ok(SandboxAccount(1234)) && ParseRevision(revs[1]) == Ok(SandboxAccount(12345));
    assert r.Ok?;
    assert r.value == [SandboxAccount(1234), SandboxAccount(12345)];
  }

  // ===========================================================================
  // The adapter object
  // ===========================================================================

  /**
   * The adapter: its configuration, its backend (set by `connect`) and, for the proofs, the log of
   * primitives startup has invoked.
   */
  class ImmuDBAdapter {
    const sandbox: bool
    const ledger: string
    const collectionName: string
    const baseUrl: string
    const apiKey: string

    /** The backend, None until `connect` runs. */
    var client: Option<ApiClient>

    /** The primitives startup reconciliation has invoked on the backend, in order. */
    ghost var startupRequests: seq<Request>

    constructor (sandbox: bool, ledger: string, collection: string, baseUrl: string, apiKey: string)
      ensures this.sandbox == sandbox && this.ledger == ledger && this.collectionName == collection
      ensures this.baseUrl == baseUrl && this.apiKey == apiKey
      ensures client == None && startupRequests == []
    {
      this.sandbox := sandbox;
      this.ledger := ledger;
      this.collectionName := collection;
      this.baseUrl := baseUrl;
      this.apiKey := apiKey;
      client := None;
      startupRequests := [];
    }

    /**
     * Selects the backend and, outside sandbox mode, reconciles the collection's schema. Raises only
     * ConnectionError, with the message `ConnectError` gives.
     */
    method Connect(factory: Client, vault: VaultReplies) returns (e: Option<Exc>)
      modifies this`client, this`startupRequests, factory
      ensures client == Some(if sandbox then NewClient("test_ledger", "http://example.com", "test_api_key", true)
                             else NewClient(ledger, baseUrl, apiKey, false))
      ensures factory.instance == client
      ensures startupRequests == old(startupRequests) + (if sandbox then [] else ReconcileRequests(collectionName, vault.details))
      ensures e.None? <==> ConnectError(sandbox, collectionName, vault).None?
      ensures e.Some? ==> e.value == ConnectionError(ConnectError(sandbox, collectionName, vault).value)
    {
      if sandbox {
        var c := factory.New("test_ledger", "http://example.com", "test_api_key", true);
        client := Some(c);
        e := None;
      } else {
        var c := factory.New(ledger, baseUrl, apiKey, false);
        client := Some(c);
        e := CheckOrCreateCollection(vault);
      }
    }

    /** Checks the schema; a 404 leads to creation, any other failure to a ConnectionError. */
    method CheckOrCreateCollection(vault: VaultReplies) returns (e: Option<Exc>)
      requires client.Some? && client.value.ProductionClient?
      modifies this`startupRequests
      ensures startupRequests == old(startupRequests) + ReconcileRequests(collectionName, vault.details)
      ensures e.None? <==> ReconcileError(collectionName, vault.details, vault.create).None?
      ensures e.Some? ==> e.value == ConnectionError(ReconcileError(collectionName, vault.details, vault.create).value)
    {
      var raised := CheckCollectionSchema(vault);
      if raised.None? {
        e := None;
      } else if raised.value.HttpStatusError? {
        // Raised inside the status-error handler: the generic handler does not see it.
        if raised.value.code == 404 {
          e := CreateCollection(vault);
        } else {
          e := Some(ConnectionError("Collection " + collectionName + " is not available in the vault."));
        }
      } else {
        e := Some(ConnectionError(UnavailablePrefix + raised.value.Str()));
      }
    }

    /** Fetches the collection details and raises what the diff finds, in priority order. */
    method CheckCollectionSchema(vault: VaultReplies) returns (e: Option<Exc>)
      requires client.Some? && client.value.ProductionClient?
      modifies this`startupRequests
      ensures startupRequests == old(startupRequests) + [GetCollectionDetails(collectionName)]
      ensures e == SchemaCheckRaises(vault.details)
    {
      var response := CallGetCollectionDetails(client.value, vault, collectionName);
      startupRequests := startupRequests + [GetCollectionDetails(collectionName)];
      if response.Raised? {
        return Some(ExcOf(response.err));
      }
      var findings := VerifyFields(response.value, AccountSchema);
      if findings.Err? {
        return Some(findings.error);
      }
      var f := findings.value;
      if f.missingFields != [] {
        e := Some(ConnectionError(MissingFieldsPrefix + ListRepr(f.missingFields)));
      } else if f.typeMismatches != [] {
        e := Some(ConnectionError(TypeMismatchesPrefix + ListRepr(f.typeMismatches)));
      } else if !f.accountNumberUnique {
        e := Some(ConnectionError(NotUniqueText));
      } else {
        e := None;
      }
    }

    /** Creates the collection with the expected schema; every failure becomes a ConnectionError. */
    method CreateCollection(vault: VaultReplies) returns (e: Option<Exc>)
      requires client.Some? && client.value.ProductionClient?
      modifies this`startupRequests
      ensures startupRequests == old(startupRequests) + [Request.CreateCollection(collectionName, AccountSchema)]
      ensures e.None? <==> CreationError(vault.create).None?
      ensures e.Some? ==> e.value == ConnectionError(CreationError(vault.create).value)
    {
      var result := CallCreateCollection(client.value, vault, collectionName, AccountSchema);
      startupRequests := startupRequests + [Request.CreateCollection(collectionName, AccountSchema)];
      match result {
        case Replied(confirmed) =>
          // The unconfirmed-creation error is raised inside the try block and caught by the generic handler.
          e := if confirmed then None else Some(ConnectionError(Unavailable));
        case Raised(HttpStatus(code)) =>
          if code == 402 {
            e := Some(ConnectionError("Collection creation requires a payment."));
          } else {
            e := Some(ConnectionError("Failed to create the collection in the vault. " + DecimalText(code)));
          }
        case Raised(_) =>
          e := Some(ConnectionError(Unavailable));
      }
    }

    /** Diffs observed details against a schema, appending findings field by field. */
    static method VerifyFields(jsonData: CollectionDetails, model: CollectionSchema) returns (r: Result<Findings, Exc>)
      ensures r == Diff(jsonData, model)
    {
      var modelFields := model.fields;
      if jsonData.fields.None? {
        return Err(KeyError("fields"));
      }
      var jsonFields := jsonData.fields.value;
      var missingFields: seq<string> := [];
      var typeMismatches: seq<string> := [];
      var i := 0;
      while i < |modelFields|
        invariant 0 <= i <= |modelFields|
        invariant missingFields == MissingFields(modelFields[..i], jsonFields)
        invariant typeMismatches == TypeMismatches(modelFields[..i], jsonFields)
      {
        var field := modelFields[i];
        var matchingItem := FirstNamed(jsonFields, field.name);
        if matchingItem.Some? {
          if field.typ != matchingItem.value.typ {
            typeMismatches := typeMismatches + [MismatchText(field.name, field.typ, matchingItem.value.typ)];
          }
        } else {
          missingFields := missingFields + [field.name];
        }
        assert modelFields[..i + 1][..i] == modelFields[..i];
        i := i + 1;
      }
      assert modelFields[..i] == modelFields;
      if jsonData.indexes.None? {
        return Err(KeyError("indexes"));
      }
      var accountNumberUnique := AccountNumberUnique(jsonData.indexes.value);
      return Ok(Findings(missingFields, typeMismatches, accountNumberUnique));
    }

    /** count_accounts: the backend's count, or the failure response for its outcome. */
    function CountAccounts(vault: VaultReplies): (r: Response<int>)
      reads this
      ensures client.None? ==> r == Failure(UnexpectedPrefix + NoAttribute("countCollection"), 500)
      ensures client.Some? && client.value.SandboxClient? ==> r == Success(2)
      ensures client.Some? && client.value.ProductionClient? ==> r == CountResult(vault.count)
    {
      if client.None? then ErrorResponse(CountOp, Other(NoAttribute("countCollection")))
      else CountResult(CallCountCollection(client.value, vault, collectionName))
    }

    /** get_accounts: one account per revision of the requested page, or the failure response. */
    method GetAccounts(page: int, count: int, vault: VaultReplies) returns (r: Response<seq<Account>>)
      ensures client.None? ==> r == Failure(UnexpectedPrefix + NoAttribute("getData"), 500)
      ensures client.Some? ==> r == GetResult(CallGetData(client.value, vault, collectionName, page, count))
    {
      if client.None? {
        return ErrorResponse(GetOp, Other(NoAttribute("getData")));
      }
      var accountsData := CallGetData(client.value, vault, collectionName, page, count);
      if accountsData.Raised? {
        return ErrorResponse(GetOp, accountsData.err);
      }
      var walked := RevisionsOf(accountsData.value);
      if walked.Err? {
        return ErrorResponse(GetOp, Other(walked.error));
      }
      var revisions := walked.value;
      var accounts: seq<Account> := [];
      var i := 0;
      while i < |revisions|
        invariant 0 <= i <= |revisions|
        invariant ConvertAll(revisions[..i], ParseRevision) == Ok(accounts)
      {
        var document := DocumentOf(revisions[i]);
        var account: Result<Account, string>;
        if document.Err? {
          account := Err(document.error);
        } else {
          account := ValidateAccount(document.value);
        }
        assert account == ParseRevision(revisions[i]);
        ConvertStep(revisions, ParseRevision, i, accounts);
        if account.Err? {
          ConvertErrorPersists(revisions, ParseRevision, i + 1);
          return ErrorResponse(GetOp, Other(account.error));
        }
        accounts := accounts + [account.value];
        i := i + 1;
      }
      assert revisions[..i] == revisions;
      return Success(accounts);
    }

    /** set_accounts: stores the account's document and returns the transaction id, or the failure response. */
    function SetAccounts(account: Account, vault: VaultReplies): (r: Response<string>)
      reads this
      ensures client.None? ==> r == Failure(UnexpectedPrefix + NoAttribute("setData"), 500)
      ensures client.Some? && client.value.SandboxClient? ==> r == Success("36")
      ensures client.Some? && client.value.ProductionClient? ==> r == SetResult(vault.setData)
    {
      if client.None? then ErrorResponse(SetOp, Other(NoAttribute("setData")))
      else SetResult(CallSetData(client.value, vault, collectionName, ToDocument(account)))
    }
  }

  // ===========================================================================
  // Scenarios
  // ===========================================================================

  /** Sandbox mode: no request reaches the vault, and every operation answers from the fixture. */
  method SandboxScenario(factory: Client, vault: VaultReplies)
    returns (adapter: ImmuDBAdapter, e: Option<Exc>, count: Response<int>, listing: Response<seq<Account>>,
             written: Response<string>)
    modifies factory
    ensures e.None? && adapter.startupRequests == []
    ensures count == Success(2)
    ensures listing == Success([SandboxAccount(1234), SandboxAccount(12345)])
    ensures written == Success("36")
  {
    adapter := new ImmuDBAdapter(true, "ledger", "accounts", "https://vault", "key");
    e := adapter.Connect(factory, vault);
    count := adapter.CountAccounts(vault);
    listing := adapter.GetAccounts(1, 100, vault);
    SandboxListing("accounts", 1, 100);
    written := adapter.SetAccounts(SandboxAccount(1234), vault);
  }

  /** A 404 followed by a confirmed creation connects, after exactly one creation request. */
  method CreateOnNotFoundScenario(factory: Client, vault: VaultReplies) returns (adapter: ImmuDBAdapter, e: Option<Exc>)
    requires vault.details == Raised(HttpStatus(404)) && vault.create == Replied(true)
    modifies factory
    ensures e.None?
    ensures adapter.startupRequests == [GetCollectionDetails("accounts"), CreateCollection("accounts", AccountSchema)]
  {
    adapter := new ImmuDBAdapter(false, "ledger", "accounts", "https://vault", "key");
    e := adapter.Connect(factory, vault);
  }
}
