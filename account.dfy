/**
 * The account schema: the constant collection schema the vault collection must have, the `Account`
 * record and the field constraints the record's validator enforces.
 */
module Accounts {
  import opened Wrappers
  import opened OperationTypes

  // ---------------------------------------------------------------------------
  // Collection schema descriptors
  // ---------------------------------------------------------------------------

  /** One `{"name": ..., "type": ...}` entry of a collection schema. */
  datatype SchemaField = SchemaField(name: string, typ: string)

  /** One `{"fields": [...], "isUnique": ...}` index entry of a collection schema. */
  datatype SchemaIndex = SchemaIndex(fields: seq<string>, isUnique: bool)

  /** A collection schema: its field list and its index list, both in order. */
  datatype CollectionSchema = CollectionSchema(fields: seq<SchemaField>, indexes: seq<SchemaIndex>)

  /** The expected schema of the accounts collection. */
  const AccountSchema: CollectionSchema := CollectionSchema(
    [ SchemaField("account_number", "INTEGER"),
      SchemaField("account_name", "STRING"),
      SchemaField("iban", "STRING"),
      SchemaField("address", "STRING"),
      SchemaField("amount", "INTEGER"),
      SchemaField("type", "STRING") ],
    [ SchemaIndex(["account_number"], true) ])

  /** The schema names the six account fields, each once, with one unique index on `account_number`. */
  lemma AccountSchemaShape()
    ensures |AccountSchema.fields| == 6 && |AccountSchema.indexes| == 1
    ensures AccountSchema.indexes[0] == SchemaIndex(["account_number"], true)
    ensures forall i, j :: 0 <= i < j < 6 ==> AccountSchema.fields[i].name != AccountSchema.fields[j].name
  {
  }

  // ---------------------------------------------------------------------------
  // The IBAN pattern ^[A-Z]{2}[0-9]{2}[A-Z0-9]{1,30}$
  // ---------------------------------------------------------------------------

  predicate IsUpper(c: char) { 'A' <= c <= 'Z' }

  predicate IsDigit(c: char) { '0' <= c <= '9' }

  /** The three character classes the pattern uses. */
  datatype CharClass = Upper | Digit | UpperOrDigit

  predicate InClass(c: char, k: CharClass)
  {
    match k
    case Upper => IsUpper(c)
    case Digit => IsDigit(c)
    case UpperOrDigit => IsUpper(c) || IsDigit(c)
  }

  /** A pattern piece `[class]{min,max}`. */
  datatype Piece = Piece(cls: CharClass, min: nat, max: nat)

  /** The IBAN pattern as written, piece by piece, anchored at both ends. */
  function IbanPattern(): seq<Piece>
  {
    [Piece(Upper, 2, 2), Piece(Digit, 2, 2), Piece(UpperOrDigit, 1, 30)]
  }

  predicate AllInClass(s: string, k: CharClass)
  {
    forall i :: 0 <= i < |s| ==> InClass(s[i], k)
  }

  /** Whether the whole of `s` matches the pieces in sequence (an anchored match). */
  predicate MatchesPieces(ps: seq<Piece>, s: string)
    decreases |ps|
  {
    if ps == [] then s == []
    else exists k :: ps[0].min <= k <= ps[0].max && k <= |s| && AllInClass(s[..k], ps[0].cls)
                     && MatchesPieces(ps[1..], s[k..])
  }

  /** The closed form of the pattern: 5 to 34 characters, two capitals, two digits, then capitals or digits. */
  predicate IbanValid(s: string)
  {
    && 5 <= |s| <= 34
    && IsUpper(s[0]) && IsUpper(s[1])
    && IsDigit(s[2]) && IsDigit(s[3])
    && forall i :: 4 <= i < |s| ==> IsUpper(s[i]) || IsDigit(s[i])
  }

  /** A piece `[class]{2}` matches exactly two characters of its class. */
  lemma {:induction false} FixedPairMeaning(k: CharClass, rest: seq<Piece>, s: string)
    ensures MatchesPieces([Piece(k, 2, 2)] + rest, s)
        <==> |s| >= 2 && InClass(s[0], k) && InClass(s[1], k) && MatchesPieces(rest, s[2..])
  {
    var ps := [Piece(k, 2, 2)] + rest;
    assert ps[0] == Piece(k, 2, 2) && ps[1..] == rest;
    if |s| >= 2 && InClass(s[0], k) && InClass(s[1], k) && MatchesPieces(rest, s[2..]) {
      assert AllInClass(s[..2], k);
    }
  }

  /** The last piece alone: 1 to 30 capitals or digits. */
  lemma {:induction false} LastPieceMeaning(t: string)
    ensures MatchesPieces([Piece(UpperOrDigit, 1, 30)], t) <==> 1 <= |t| <= 30 && AllInClass(t, UpperOrDigit)
  {
    var ps := [Piece(UpperOrDigit, 1, 30)];
    assert ps[1..] == [];
    if 1 <= |t| <= 30 && AllInClass(t, UpperOrDigit) {
      assert t[..|t|] == t && t[|t|..] == [];
    }
  }

  /** The pattern as written accepts exactly the strings of the closed form. */
  lemma IbanPatternMeaning(s: string)
    ensures MatchesPieces(IbanPattern(), s) <==> IbanValid(s)
  {
    var p3 := [Piece(UpperOrDigit, 1, 30)];
    var p2 := [Piece(Digit, 2, 2)] + p3;
    assert IbanPattern() == [Piece(Upper, 2, 2)] + p2;
    FixedPairMeaning(Upper, p2, s);
    if |s| >= 2 {
      FixedPairMeaning(Digit, p3, s[2..]);
      if |s| >= 4 {
        var t := s[4..];
        assert s[2..][2..] == t;
        LastPieceMeaning(t);
        assert AllInClass(t, UpperOrDigit) <==> forall i :: 4 <= i < |s| ==> IsUpper(s[i]) || IsDigit(s[i]) by {
          assert forall i :: 0 <= i < |t| ==> t[i] == s[4 + i];
        }
      }
    }
  }

  // ---------------------------------------------------------------------------
  // The Account record and its validator
  // ---------------------------------------------------------------------------

  /** A validated account record. */
  datatype Account = Account(
    accountNumber: int,
    accountName: string,
    iban: string,
    address: string,
    amount: real,
    typ: OperationType)

  predicate NameValid(s: string) { 1 <= |s| <= 100 }

  predicate AddressValid(s: string) { 1 <= |s| <= 200 }

  predicate AmountValid(x: real) { x >= 1.0 }

  /** The constraints declared on the record; `account_number` is any integer and `type` any member. */
  predicate ValidAccount(a: Account)
  {
    NameValid(a.accountName) && IbanValid(a.iban) && AddressValid(a.address) && AmountValid(a.amount)
  }

  /**
   * The raw input of the validator: each field read with `.get`, so absent keys are None.
   * Values are typed; lax coercion between JSON types is not modelled.
   */
  datatype Document = Document(
    accountNumber: Option<int>,
    accountName: Option<string>,
    iban: Option<string>,
    address: Option<string>,
    amount: Option<real>,
    typ: Option<string>)

  /** The document `{}` that stands in for a revision without one. */
  const EmptyDocument: Document := Document(None, None, None, None, None, None)

  /** The names of the fields the validator rejects, in declaration order. */
  function InvalidFields(d: Document): seq<string>
  {
    (if d.accountNumber.None? then ["account_number"] else [])
    + (if d.accountName.None? || !NameValid(d.accountName.value) then ["account_name"] else [])
    + (if d.iban.None? || !MatchesPieces(IbanPattern(), d.iban.value) then ["iban"] else [])
    + (if d.address.None? || !AddressValid(d.address.value) then ["address"] else [])
    + (if d.amount.None? || !AmountValid(d.amount.value) then ["amount"] else [])
    + (if d.typ.None? || FromValue(d.typ.value).None? then ["type"] else [])
  }

  /** Every field is present and meets its constraint. */
  predicate FieldsAccepted(d: Document)
  {
    d.accountNumber.Some? && d.accountName.Some? && NameValid(d.accountName.value)
    && d.iban.Some? && MatchesPieces(IbanPattern(), d.iban.value)
    && d.address.Some? && AddressValid(d.address.value)
    && d.amount.Some? && AmountValid(d.amount.value)
    && d.typ.Some? && FromValue(d.typ.value).Some?
  }

  /** No field is rejected exactly when every field is accepted. */
  lemma NoInvalidFields(d: Document)
    ensures InvalidFields(d) == [] <==> FieldsAccepted(d)
  {
  }

  function JoinNames(names: seq<string>): string
  {
    if names == [] then "" else if |names| == 1 then names[0] else names[0] + ", " + JoinNames(names[1..])
  }

  /** The text of a validation failure; it names the rejected fields. */
  function ValidationText(names: seq<string>): string
  {
    "validation error for Account: " + JoinNames(names)
  }

  /** The field-by-field view of an account (what `account.dict()` gives, with the enum as its value). */
  function ToDocument(a: Account): (d: Document)
    ensures d.accountNumber == Some(a.accountNumber) && d.typ == Some(a.typ.Value())
  {
    Document(Some(a.accountNumber), Some(a.accountName), Some(a.iban), Some(a.address), Some(a.amount),
             Some(a.typ.Value()))
  }

  /**
   * Constructs an Account from a document. It succeeds iff no field is rejected; the account then
   * satisfies every constraint and carries the document's values unchanged.
   */
  function ValidateAccount(d: Document): (r: Result<Account, string>)
  {
    if InvalidFields(d) != [] then Err(ValidationText(InvalidFields(d)))
    else
      var t := FromValue(d.typ.value).value;
      Ok(Account(d.accountNumber.value, d.accountName.value, d.iban.value, d.address.value, d.amount.value, t))
  }

  /**
   * Validation succeeds iff no field is rejected; the account then satisfies every constraint and
   * carries the document's values unchanged, and a failure's text names the rejected fields.
   */
  lemma ValidateAccountMeaning(d: Document)
    ensures ValidateAccount(d).Ok? <==> InvalidFields(d) == []
    ensures ValidateAccount(d).Ok? ==> ValidAccount(ValidateAccount(d).value) && ToDocument(ValidateAccount(d).value) == d
    ensures ValidateAccount(d).Err? ==> ValidateAccount(d).error == ValidationText(InvalidFields(d))
  {
    NoInvalidFields(d);
    if FieldsAccepted(d) {
      IbanPatternMeaning(d.iban.value);
      var a := ValidateAccount(d).value;
      assert a.typ.Value() == d.typ.value;
      assert ToDocument(a) == d;
    }
  }

  /** A valid account survives the trip through its document unchanged. */
  lemma ValidateRoundTrip(a: Account)
    requires ValidAccount(a)
    ensures ValidateAccount(ToDocument(a)) == Ok(a)
  {
    IbanPatternMeaning(a.iban);
    ValueRoundTrip(a.typ, a.typ.Value());
  }

  /** A document that validates is the document of a valid account, and conversely. */
  lemma ValidDocumentsAreAccountDocuments(d: Document)
    ensures ValidateAccount(d).Ok? <==> exists a :: ValidAccount(a) && ToDocument(a) == d
  {
    ValidateAccountMeaning(d);
    if exists a :: ValidAccount(a) && ToDocument(a) == d {
      var a :| ValidAccount(a) && ToDocument(a) == d;
      ValidateRoundTrip(a);
    }
  }

  /** A valid IBAN is 5 to 34 characters long and opens with two capitals and two digits. */
  lemma ValidIbanShape(s: string)
    requires MatchesPieces(IbanPattern(), s)
    ensures 5 <= |s| <= 34
    ensures IsUpper(s[0]) && IsUpper(s[1]) && IsDigit(s[2]) && IsDigit(s[3])
  {
    IbanPatternMeaning(s);
  }

  /** Lower-case letters, a letter among the check digits or an empty tail are all rejected. */
  lemma IbanRejections()
    ensures !MatchesPieces(IbanPattern(), "it123456978213456789")
    ensures !MatchesPieces(IbanPattern(), "IT1X3456")
    ensures !MatchesPieces(IbanPattern(), "IT12")
  {
    IbanPatternMeaning("it123456978213456789");
    IbanPatternMeaning("IT1X3456");
    IbanPatternMeaning("IT12");
  }

  /** The shortest accepted IBAN: country, check digits and a single character. */
  lemma IbanShortestAccepted()
    ensures MatchesPieces(IbanPattern(), "IT12A")
  {
    IbanPatternMeaning("IT12A");
  }

  /** The account number takes no part in validity: any integer, of any sign, is accepted. */
  lemma AnyAccountNumber(d: Document, n: int)
    requires d.accountNumber.Some?
    ensures ValidateAccount(d).Ok? <==> ValidateAccount(d.(accountNumber := Some(n))).Ok?
  {
  }

  /** The length bounds on the name are inclusive at both ends. */
  lemma NameLengthBounds(d: Document, name: string)
    requires d.accountName == Some(name)
    ensures "account_name" in InvalidFields(d) <==> !(1 <= |name| <= 100)
  {
  }

  /** The length bounds on the address are inclusive at both ends. */
  lemma AddressLengthBounds(d: Document, address: string)
    requires d.address == Some(address)
    ensures "address" in InvalidFields(d) <==> !(1 <= |address| <= 200)
  {
  }
}
