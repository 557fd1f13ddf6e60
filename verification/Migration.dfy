/** The migration that encrypts the message table in place, and its way back
    (backend/alembic/versions/0005_encrypt_message_content.py). */
module Migration {
  import opened Prelude
  import opened MessageEncryption

  datatype Row = Row(id: nat, content: Option<Text>)

  /** The primary key. */
  ghost predicate UniqueIds(rows: seq<Row>) {
    forall i, j :: 0 <= i < j < |rows| ==> rows[i].id != rows[j].id
  }

  /** A row upgrade encrypts. */
  predicate Plain(e: Encryptor, r: Row) { r.content.Some? && !e.isEncrypted(r.content.value) }

  /** A row downgrade decrypts. */
  predicate Prefixed(e: Encryptor, r: Row) { r.content.Some? && e.isEncrypted(r.content.value) }

  /** Downgrading raises on a prefixed row that does not decrypt. */
  predicate Readable(e: Encryptor, r: Row) { Prefixed(e, r) ==> e.decrypt(r.content.value).Some? }

  function UpgradeRow(e: Encryptor, nonce: Nonce, r: Row): Row {
    if Plain(e, r) then Row(r.id, Some(e.encrypt(nonce, r.content.value))) else r
  }

  function DowngradeRow(e: Encryptor, r: Row): Row {
    if Prefixed(e, r) && Readable(e, r) then Row(r.id, e.decrypt(r.content.value)) else r
  }

  function UpgradeRows(e: Encryptor, nonces: nat -> Nonce, rows: seq<Row>): (r: seq<Row>)
    ensures |r| == |rows| && forall i :: 0 <= i < |r| ==> r[i] == UpgradeRow(e, nonces(i), rows[i])
  {
    seq(|rows|, i requires 0 <= i < |rows| => UpgradeRow(e, nonces(i), rows[i]))
  }

  function EachDowngraded(e: Encryptor, rows: seq<Row>): (r: seq<Row>)
    ensures |r| == |rows| && forall i :: 0 <= i < |rows| ==> r[i] == DowngradeRow(e, rows[i])
  {
    seq(|rows|, i requires 0 <= i < |rows| => DowngradeRow(e, rows[i]))
  }

  /** None: the migration raised, and its transaction was rolled back. */
  function DowngradeRows(e: Encryptor, rows: seq<Row>): (r: Option<seq<Row>>) {
    if exists i :: 0 <= i < |rows| && !Readable(e, rows[i]) then None else Some(EachDowngraded(e, rows))
  }

  /** UPDATE messages SET content = :content WHERE id = :id. */
  function Updated(rows: seq<Row>, id: nat, content: Text): (r: seq<Row>)
    ensures |r| == |rows|
  {
    seq(|rows|, i requires 0 <= i < |rows| => if rows[i].id == id then Row(id, Some(content)) else rows[i])
  }

  /** Row i is the only one its id names, so the update moves the front of the
      migrated rows one row on. */
  lemma UpdateMovesOn(goal: seq<Row>, selected: seq<Row>, i: nat, content: Text)
    requires UniqueIds(selected) && |goal| == |selected| && i < |goal|
    requires forall k :: 0 <= k < |goal| ==> goal[k].id == selected[k].id
    requires goal[i] == Row(selected[i].id, Some(content))
    ensures Updated(goal[..i] + selected[i..], selected[i].id, content) == goal[..i + 1] + selected[i + 1..]
  {
  }

  lemma KeepMovesOn(goal: seq<Row>, selected: seq<Row>, i: nat)
    requires |goal| == |selected| && i < |goal| && goal[i] == selected[i]
    ensures goal[..i] + selected[i..] == goal[..i + 1] + selected[i + 1..]
  {
  }

  class MessageTable {
    var rows: seq<Row>

    constructor (rows: seq<Row>)
      ensures this.rows == rows
    {
      this.rows := rows;
    }

    /** The rows are read once, then updated one by one. */
    method Upgrade(e: Encryptor, nonces: nat -> Nonce)
      requires UniqueIds(rows)
      modifies this
      ensures rows == UpgradeRows(e, nonces, old(rows))
    {
      var selected := rows;
      ghost var goal := UpgradeRows(e, nonces, rows);
      for i := 0 to |selected|
        invariant rows == goal[..i] + selected[i..]
      {
        var content := selected[i].content;
        if content.None? || e.isEncrypted(content.value) {
          KeepMovesOn(goal, selected, i);
          continue;
        }
        var encrypted := e.encrypt(nonces(i), content.value);
        UpdateMovesOn(goal, selected, i, encrypted);
        rows := Updated(rows, selected[i].id, encrypted);
      }
    }

    method Downgrade(e: Encryptor) returns (ok: bool)
      requires UniqueIds(rows)
      modifies this
      ensures ok <==> DowngradeRows(e, old(rows)).Some?
      ensures rows == if ok then DowngradeRows(e, old(rows)).value else old(rows)
    {
      var selected := rows;
      ghost var goal := EachDowngraded(e, rows);
      for i := 0 to |selected|
        invariant rows == goal[..i] + selected[i..]
        invariant forall k :: 0 <= k < i ==> Readable(e, selected[k])
      {
        var content := selected[i].content;
        if content.None? || !e.isEncrypted(content.value) {
          KeepMovesOn(goal, selected, i);
          continue;
        }
        var plaintext := e.decrypt(content.value);
        if plaintext.None? {
          assert !Readable(e, selected[i]);
          rows := selected;
          return false;
        }
        UpdateMovesOn(goal, selected, i, plaintext.value);
        rows := Updated(rows, selected[i].id, plaintext.value);
      }
      return true;
    }
  }

  /** After upgrade no row is left in the clear, and a second one changes nothing. */
  lemma UpgradeIsIdempotent(c: Cipher, nonces: nat -> Nonce, again: nat -> Nonce, rows: seq<Row>)
    requires Lawful(c)
    ensures var e := MessageEncryptor(c);
      && (forall i :: 0 <= i < |rows| ==> !Plain(e, UpgradeRows(e, nonces, rows)[i]))
      && UpgradeRows(e, again, UpgradeRows(e, nonces, rows)) == UpgradeRows(e, nonces, rows)
  {
    EncryptorIsLawful(c);
    var e := MessageEncryptor(c);
    assert LawfulEncryptor(e);
  }

  /** Downgrade after upgrade gives back a row exactly when the row was not
      prefixed before: a prefixed one is either refused or comes back shorter. */
  lemma RowRestoredExactly(e: Encryptor, nonce: Nonce, r: Row)
    requires LawfulEncryptor(e)
    ensures var u := UpgradeRow(e, nonce, r);
            !Prefixed(e, r) <==> Readable(e, u) && DowngradeRow(e, u) == r
  {
    if Prefixed(e, r) && Readable(e, r) {
      assert |e.decrypt(r.content.value).value| < |r.content.value|;
    }
  }

  /** Downgrade after upgrade restores the table exactly when no row was prefixed. */
  lemma TableRestoredExactly(c: Cipher, nonces: nat -> Nonce, rows: seq<Row>)
    requires Lawful(c)
    ensures var e := MessageEncryptor(c);
            DowngradeRows(e, UpgradeRows(e, nonces, rows)) == Some(rows)
            <==> forall i :: 0 <= i < |rows| ==> !Prefixed(e, rows[i])
  {
    EncryptorIsLawful(c);
    RestoredExactly(MessageEncryptor(c), nonces, rows);
  }

  /** With a row that holds the bare prefix the way back raises. */
  lemma BarePrefixStopsDowngrade(c: Cipher, nonces: nat -> Nonce, id: nat)
    ensures var e, rows := MessageEncryptor(c), [Row(id, Some(PREFIX + [COLON]))];
      DowngradeRows(e, UpgradeRows(e, nonces, rows)).None?
  {
    var e, rows := MessageEncryptor(c), [Row(id, Some(PREFIX + [COLON]))];
    BarePrefixIsUnreadable(c);
    assert UpgradeRows(e, nonces, rows)[0] == rows[0] && !Readable(e, rows[0]);
  }

  lemma RestoredExactly(e: Encryptor, nonces: nat -> Nonce, rows: seq<Row>)
    requires LawfulEncryptor(e)
    ensures DowngradeRows(e, UpgradeRows(e, nonces, rows)) == Some(rows)
            <==> forall i :: 0 <= i < |rows| ==> !Prefixed(e, rows[i])
  {
    var u := UpgradeRows(e, nonces, rows);
    forall i | 0 <= i < |rows|
      ensures !Prefixed(e, rows[i]) <==> Readable(e, u[i]) && DowngradeRow(e, u[i]) == rows[i]
    {
      RowRestoredExactly(e, nonces(i), rows[i]);
    }
    if forall i :: 0 <= i < |rows| ==> !Prefixed(e, rows[i]) {
      assert EachDowngraded(e, u) == rows;
    } else if DowngradeRows(e, u) == Some(rows) {
      forall i | 0 <= i < |rows| ensures !Prefixed(e, rows[i]) {
        assert EachDowngraded(e, u)[i] == DowngradeRow(e, u[i]);
      }
    }
  }

  /** The application reads content through decrypt: the upgrade changes what it
      reads of no row. */
  lemma UpgradeKeepsWhatIsRead(c: Cipher, nonces: nat -> Nonce, rows: seq<Row>, i: nat)
    requires Lawful(c) && i < |rows| && rows[i].content.Some?
    ensures var u := UpgradeRows(MessageEncryptor(c), nonces, rows)[i];
            u.content.Some? && Decrypt(c, u.content.value) == Decrypt(c, rows[i].content.value)
  {
    if Plain(MessageEncryptor(c), rows[i]) { DecryptEncrypt(c, nonces(i), rows[i].content.value); }
  }
}
