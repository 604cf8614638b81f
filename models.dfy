/** Rows of the `companies` and `conversations` tables, the lookups the handlers
    run against them, and the decrypted-credential properties of a company. */
module Models {
  import opened Wrappers
  import opened Json

  /** One row of `companies`. Secret columns hold Fernet ciphertext. */
  datatype Company = Company(
    id: int,
    name: string,
    phoneNumberId: Option<string>,
    whatsappToken: string,
    verifyToken: string,
    webhookSecret: Option<string>,
    zapiInstanceId: Option<string>,
    aiPrompt: string,
    language: string,
    tone: string,
    businessHours: Option<string>,
    active: Option<bool>)

  /** One row of `conversations`: a user message and the reply it received. */
  datatype Turn = Turn(
    phoneNumber: string,
    userMessage: string,
    aiResponse: string,
    companyId: int,
    timestamp: int)

  /** The fixed company `get_debug_company()` builds; its secrets are plain "test". */
  const DebugCompany := Company(
    999, "Debug Company", Some("test-id"), "test", "test", Some("test"), None,
    "You are a test assistant.", "Portuguese", "Informal", None, None)

  /** `Company.phone_number_id == key` in SQL. A string key is compared with the
      column; a JSON null turns into `IS NULL`, which every row with a NULL column
      satisfies. */
  predicate HasPhoneId(c: Company, key: Json)
  {
    match key
    case JStr(p) => c.phoneNumberId == Some(p)
    case JNull => c.phoneNumberId.None?
    case _ => false
  }

  /** A key the driver binds against the String column. Any other JSON value
      (number, boolean, list, object) makes the query raise. */
  predicate Bindable(key: Json)
  {
    key.JStr? || key.JNull?
  }

  /** The `unique=True` constraints on `id` and `phone_number_id`. A unique column
      admits any number of NULLs. */
  ghost predicate UniqueIds(rows: seq<Company>)
  {
    forall i, j :: 0 <= i < j < |rows| ==> rows[i].id != rows[j].id
  }

  ghost predicate UniquePhoneIds(rows: seq<Company>)
  {
    forall i, j :: 0 <= i < j < |rows| && rows[i].phoneNumberId.Some? ==>
      rows[i].phoneNumberId != rows[j].phoneNumberId
  }

  /** Two distinct rows satisfy the condition. */
  predicate Ambiguous(rows: seq<Company>, key: Json)
  {
    exists i, j :: 0 <= i < j < |rows| && HasPhoneId(rows[i], key) && HasPhoneId(rows[j], key)
  }

  /** Row i is the only row satisfying the condition. */
  predicate SoleMatch(rows: seq<Company>, key: Json, i: int)
  {
    0 <= i < |rows| && HasPhoneId(rows[i], key)
    && forall j :: 0 <= j < |rows| && j != i ==> !HasPhoneId(rows[j], key)
  }

  /** What `scalar_one_or_none()` gives: no row, the one row, or a raise
      (MultipleResultsFound, or the driver refusing the key). */
  datatype Lookup = NoRow | OneRow(company: Company) | Raised

  /** The rows satisfying the condition, counted up to two. */
  function MatchScan(rows: seq<Company>, key: Json): Lookup
    decreases |rows|
  {
    if |rows| == 0 then NoRow
    else
      var rest := MatchScan(rows[1..], key);
      if !HasPhoneId(rows[0], key) then rest
      else if rest == NoRow then OneRow(rows[0])
      else Raised
  }

  /** The scan finds no row exactly when none matches, raises exactly when two do,
      and otherwise returns the only match. */
  lemma MatchScanCounts(rows: seq<Company>, key: Json)
    ensures MatchScan(rows, key) == NoRow <==> forall i :: 0 <= i < |rows| ==> !HasPhoneId(rows[i], key)
    ensures MatchScan(rows, key) == Raised <==> Ambiguous(rows, key)
    ensures MatchScan(rows, key).OneRow? ==>
      exists i :: SoleMatch(rows, key, i) && rows[i] == MatchScan(rows, key).company
  {
    MatchScanNone(rows, key);
    MatchScanAmbiguous(rows, key);
    MatchScanSole(rows, key);
  }

  lemma {:induction false} MatchScanNone(rows: seq<Company>, key: Json)
    ensures MatchScan(rows, key) == NoRow <==> forall i :: 0 <= i < |rows| ==> !HasPhoneId(rows[i], key)
    decreases |rows|
  {
    if |rows| > 0 {
      var tail := rows[1..];
      MatchScanNone(tail, key);
      assert forall k :: 1 <= k < |rows| ==> rows[k] == tail[k - 1];
    }
  }

  lemma {:induction false} MatchScanAmbiguous(rows: seq<Company>, key: Json)
    ensures MatchScan(rows, key) == Raised <==> Ambiguous(rows, key)
    decreases |rows|
  {
    if |rows| > 0 {
      MatchScanAmbiguous(rows[1..], key);
      MatchScanNone(rows[1..], key);
      AmbiguousCons(rows, key);
    }
  }

  /** Two rows match exactly when the first and a later one do, or two later ones do. */
  lemma AmbiguousCons(rows: seq<Company>, key: Json)
    requires |rows| > 0
    ensures Ambiguous(rows, key) <==>
      (HasPhoneId(rows[0], key) && exists k :: 0 <= k < |rows[1..]| && HasPhoneId(rows[1..][k], key))
      || Ambiguous(rows[1..], key)
  {
    if Ambiguous(rows, key) {
      AmbiguousSplits(rows, key);
    }
    if Ambiguous(rows[1..], key) {
      AmbiguousInTail(rows, key);
    }
    if HasPhoneId(rows[0], key) && exists k :: 0 <= k < |rows[1..]| && HasPhoneId(rows[1..][k], key) {
      var k :| 0 <= k < |rows[1..]| && HasPhoneId(rows[1..][k], key);
      assert HasPhoneId(rows[0], key) && HasPhoneId(rows[k + 1], key);
    }
  }

  lemma AmbiguousSplits(rows: seq<Company>, key: Json)
    requires |rows| > 0 && Ambiguous(rows, key)
    ensures (HasPhoneId(rows[0], key) && exists k :: 0 <= k < |rows[1..]| && HasPhoneId(rows[1..][k], key))
      || Ambiguous(rows[1..], key)
  {
    var i, j :| 0 <= i < j < |rows| && HasPhoneId(rows[i], key) && HasPhoneId(rows[j], key);
    assert HasPhoneId(rows[1..][j - 1], key);
    if i > 0 {
      assert HasPhoneId(rows[1..][i - 1], key);
    }
  }

  lemma AmbiguousInTail(rows: seq<Company>, key: Json)
    requires |rows| > 0 && Ambiguous(rows[1..], key)
    ensures Ambiguous(rows, key)
  {
    var i, j :| 0 <= i < j < |rows[1..]| && HasPhoneId(rows[1..][i], key) && HasPhoneId(rows[1..][j], key);
    assert HasPhoneId(rows[i + 1], key) && HasPhoneId(rows[j + 1], key);
  }

  lemma {:induction false} MatchScanSole(rows: seq<Company>, key: Json)
    ensures MatchScan(rows, key).OneRow? ==>
      exists i :: SoleMatch(rows, key, i) && rows[i] == MatchScan(rows, key).company
    decreases |rows|
  {
    if |rows| > 0 {
      var tail := rows[1..];
      var rest := MatchScan(tail, key);
      MatchScanSole(tail, key);
      MatchScanNone(tail, key);
      assert forall k :: 1 <= k < |rows| ==> rows[k] == tail[k - 1];
      if !HasPhoneId(rows[0], key) && rest.OneRow? {
        var i :| SoleMatch(tail, key, i) && tail[i] == rest.company;
        assert SoleMatch(rows, key, i + 1);
      } else if HasPhoneId(rows[0], key) && rest == NoRow {
        assert SoleMatch(rows, key, 0);
      }
    }
  }

  /** `select(Company).where(Company.phone_number_id == key)` with `scalar_one_or_none()`. */
  function CompanyByPhoneId(rows: seq<Company>, key: Json): (r: Lookup)
    ensures r == NoRow <==> Bindable(key) && forall i :: 0 <= i < |rows| ==> !HasPhoneId(rows[i], key)
    ensures r == Raised <==> !Bindable(key) || Ambiguous(rows, key)
    ensures r.OneRow? ==> Bindable(key) && exists i :: SoleMatch(rows, key, i) && rows[i] == r.company
  {
    MatchScanCounts(rows, key);
    if !Bindable(key) then Raised else MatchScan(rows, key)
  }

  /** Under the unique constraint a string key finds the one row holding it. */
  lemma CompanyByPhoneIdUnique(rows: seq<Company>, key: string, i: nat)
    requires UniquePhoneIds(rows)
    requires i < |rows| && rows[i].phoneNumberId == Some(key)
    ensures CompanyByPhoneId(rows, JStr(key)) == OneRow(rows[i])
  {
    assert SoleMatch(rows, JStr(key), i);
    var r := CompanyByPhoneId(rows, JStr(key));
    if r.OneRow? {
      var k :| SoleMatch(rows, JStr(key), k) && rows[k] == r.company;
    }
  }

  /** A JSON null finds the company whose phone_number_id is NULL when there is one
      such row, and raises when there are two. */
  lemma NullKeyMatchesNullColumn(rows: seq<Company>, i: nat)
    requires i < |rows| && rows[i].phoneNumberId.None?
    ensures (forall j :: 0 <= j < |rows| && j != i ==> rows[j].phoneNumberId.Some?)
            ==> CompanyByPhoneId(rows, JNull) == OneRow(rows[i])
    ensures (exists j :: 0 <= j < |rows| && j != i && rows[j].phoneNumberId.None?)
            ==> CompanyByPhoneId(rows, JNull) == Raised
  {
    var r := CompanyByPhoneId(rows, JNull);
    if r.OneRow? {
      var k :| SoleMatch(rows, JNull, k) && rows[k] == r.company;
    }
    if exists j :: 0 <= j < |rows| && j != i && rows[j].phoneNumberId.None? {
      var j :| 0 <= j < |rows| && j != i && rows[j].phoneNumberId.None?;
      if i < j {
        assert HasPhoneId(rows[i], JNull) && HasPhoneId(rows[j], JNull);
      } else {
        assert HasPhoneId(rows[j], JNull) && HasPhoneId(rows[i], JNull);
      }
    }
  }

  /** Position of the row with this primary key (`where(Company.id == id)`). */
  function IndexOfId(rows: seq<Company>, id: int): (r: Option<nat>)
    ensures r.Some? ==> r.value < |rows| && rows[r.value].id == id
    ensures r.None? <==> forall i :: 0 <= i < |rows| ==> rows[i].id != id
  {
    if |rows| == 0 then None
    else if rows[0].id == id then Some(0)
    else match IndexOfId(rows[1..], id)
      case None => None
      case Some(k) => Some(k + 1)
  }

  /** `company.decrypted_verify_token`; None when Fernet raises. */
  function DecryptedVerifyToken(c: Company, decrypt: string -> Option<string>): Option<string>
  {
    decrypt(c.verifyToken)
  }

  /** `company.decrypted_whatsapp_token`. */
  function DecryptedWhatsappToken(c: Company, decrypt: string -> Option<string>): Option<string>
  {
    decrypt(c.whatsappToken)
  }

  /** `company.decrypted_webhook_secret`; a NULL column raises too. */
  function DecryptedWebhookSecret(c: Company, decrypt: string -> Option<string>): Option<string>
  {
    match c.webhookSecret
    case None => None
    case Some(s) => decrypt(s)
  }

  /** The ORM session's view of the `companies` table, which the dashboard and the
      repair script change in place. */
  class CompanyStore {
    var rows: seq<Company>

    ghost predicate Valid()
      reads this
    {
      UniqueIds(rows) && UniquePhoneIds(rows)
    }

    constructor (initial: seq<Company>)
      requires UniqueIds(initial) && UniquePhoneIds(initial)
      ensures Valid() && rows == initial
    {
      rows := initial;
    }
  }
}
