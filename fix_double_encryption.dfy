/** fix_double_encryption.py: the one-off repair of Z-API instance ids that were
    encrypted twice. Fernet is the pair of parameters `encrypt` and `decrypt`
    (None where Fernet raises); all that is assumed of them is the round trip. */
module FixDoubleEncryption {
  import opened Wrappers
  import opened Strings
  import opened Models

  /** The start of every Fernet token: version byte 0x80 and the timestamp's high bytes, base64-encoded. */
  const FernetPrefix := "gAAAAA"

  /** decrypt undoes encrypt. */
  ghost predicate RoundTrip(decrypt: string -> Option<string>, encrypt: string -> string)
  {
    forall x :: decrypt(encrypt(x)) == Some(x)
  }

  /** The row is selected (non-NULL column), its first decryption starts with the
      Fernet prefix, and the second decryption succeeds. */
  predicate Rewritten(c: Company, decrypt: string -> Option<string>)
  {
    c.zapiInstanceId.Some? && decrypt(c.zapiInstanceId.value).Some?
    && StartsWith(decrypt(c.zapiInstanceId.value).value, FernetPrefix)
    && decrypt(decrypt(c.zapiInstanceId.value).value).Some?
  }

  /** One iteration of the loop. Rows with a NULL column are not selected; a
      decryption that raises is caught and leaves the row as it was. */
  function RepairRow(c: Company, decrypt: string -> Option<string>, encrypt: string -> string): (d: Company)
    ensures d == c.(zapiInstanceId := d.zapiInstanceId)
    ensures Rewritten(c, decrypt) ==>
      d.zapiInstanceId == Some(encrypt(decrypt(decrypt(c.zapiInstanceId.value).value).value))
    ensures !Rewritten(c, decrypt) ==> d == c
  {
    match c.zapiInstanceId
    case None => c
    case Some(stored) =>
      match decrypt(stored)
      case None => c
      case Some(first) =>
        if !StartsWith(first, FernetPrefix) then c
        else
          match decrypt(first)
          case None => c
          case Some(second) => c.(zapiInstanceId := Some(encrypt(second)))
  }

  /** A rewritten value decrypts, in one step, to the fully decrypted original. */
  lemma RepairedDecryptsOnce(c: Company, decrypt: string -> Option<string>, encrypt: string -> string)
    requires RoundTrip(decrypt, encrypt)
    requires Rewritten(c, decrypt)
    ensures decrypt(RepairRow(c, decrypt, encrypt).zapiInstanceId.value)
            == decrypt(decrypt(c.zapiInstanceId.value).value)
  {
    var second := decrypt(decrypt(c.zapiInstanceId.value).value).value;
    assert decrypt(encrypt(second)) == Some(second);
  }

  /** A value encrypted twice, whose inner ciphertext has the Fernet prefix, is
      repaired to a value that decrypts to the plaintext. */
  lemma DoubleEncryptedRepaired(c: Company, plain: string, decrypt: string -> Option<string>,
                                encrypt: string -> string)
    requires RoundTrip(decrypt, encrypt)
    requires c.zapiInstanceId == Some(encrypt(encrypt(plain)))
    requires StartsWith(encrypt(plain), FernetPrefix)
    ensures decrypt(RepairRow(c, decrypt, encrypt).zapiInstanceId.value) == Some(plain)
  {
    assert decrypt(encrypt(encrypt(plain))) == Some(encrypt(plain));
    assert decrypt(encrypt(plain)) == Some(plain);
  }

  /** A value encrypted once, whose plaintext lacks the prefix, is left untouched;
      so running the repair a second time changes nothing. */
  lemma SingleEncryptedKept(c: Company, plain: string, decrypt: string -> Option<string>,
                            encrypt: string -> string)
    requires RoundTrip(decrypt, encrypt)
    requires c.zapiInstanceId.Some?
    requires decrypt(c.zapiInstanceId.value) == Some(plain) && !StartsWith(plain, FernetPrefix)
    ensures RepairRow(c, decrypt, encrypt) == c
  {
  }

  lemma RepairTwice(c: Company, plain: string, decrypt: string -> Option<string>, encrypt: string -> string)
    requires RoundTrip(decrypt, encrypt)
    requires c.zapiInstanceId == Some(encrypt(encrypt(plain)))
    requires StartsWith(encrypt(plain), FernetPrefix) && !StartsWith(plain, FernetPrefix)
    ensures RepairRow(RepairRow(c, decrypt, encrypt), decrypt, encrypt) == RepairRow(c, decrypt, encrypt)
  {
    DoubleEncryptedRepaired(c, plain, decrypt, encrypt);
    SingleEncryptedKept(RepairRow(c, decrypt, encrypt), plain, decrypt, encrypt);
  }

  /** `fix_zapi_instance_ids`: every row is visited in turn and repaired in place; a
      failure on one row does not stop the loop. The session commits once, after it. */
  method FixZapiInstanceIds(store: CompanyStore, decrypt: string -> Option<string>, encrypt: string -> string)
    requires store.Valid()
    modifies store
    ensures store.Valid()
    ensures |store.rows| == |old(store.rows)|
    ensures forall k :: 0 <= k < |store.rows| ==> store.rows[k] == RepairRow(old(store.rows)[k], decrypt, encrypt)
  {
    var i := 0;
    ghost var initial := store.rows;
    while i < |store.rows|
      invariant 0 <= i <= |store.rows| == |initial|
      invariant forall k :: 0 <= k < i ==> store.rows[k] == RepairRow(initial[k], decrypt, encrypt)
      invariant forall k :: i <= k < |store.rows| ==> store.rows[k] == initial[k]
      invariant forall k :: 0 <= k < |store.rows| ==>
        store.rows[k].id == initial[k].id && store.rows[k].phoneNumberId == initial[k].phoneNumberId
    {
      store.rows := store.rows[i := RepairRow(store.rows[i], decrypt, encrypt)];
      i := i + 1;
    }
  }
}
