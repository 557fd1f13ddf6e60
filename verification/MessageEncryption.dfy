/** Encrypted message content (backend/app/security/message_encryption.py). */
module MessageEncryption {
  import opened Prelude
  import opened Utf8
  import opened Base64url

  type Text = seq<Scalar>
  type Bytes = seq<Byte>

  /** secrets.token_bytes(12). */
  type Nonce = b: Bytes | |b| == 12 witness [0, 0, 0, 0, 0, 0, 0, 0, 0, 0, 0, 0]

  /** AES-GCM under one key and one associated data. */
  datatype Cipher = Cipher(seal: (Bytes, Bytes) -> Bytes, unseal: (Bytes, Bytes) -> Option<Bytes>)

  /** All that is used of it: opening undoes sealing under a nonce of the right
      length, and the tag takes 16 bytes. */
  ghost predicate Lawful(c: Cipher) {
    && (forall nonce: Nonce, p :: c.unseal(nonce, c.seal(nonce, p)) == Some(p))
    && (forall nonce, x :: c.unseal(nonce, x).Some? ==> |x| == |c.unseal(nonce, x).value| + 16)
  }

  const COLON: Scalar := 0x3A

  /** "enc-v1" */
  const PREFIX: Text := [0x65, 0x6E, 0x63, 0x2D, 0x76, 0x31]

  predicate IsEncrypted(value: Text) { PREFIX + [COLON] <= value }

  function Encrypt(c: Cipher, nonce: Nonce, plaintext: Text): Text {
    PREFIX + [COLON] + Encode64(nonce) + [COLON] + Encode64(c.seal(nonce, Encode(plaintext)))
  }

  /** Index of the first colon, or the length. */
  function FirstColon(s: Text): (i: nat)
    ensures i <= |s| && (i < |s| ==> s[i] == COLON)
    ensures forall k :: 0 <= k < i ==> s[k] != COLON
  {
    if s == [] || s[0] == COLON then 0 else 1 + FirstColon(s[1..])
  }

  /** split(":", 2) unpacked into three parts. */
  function Split3(s: Text): Option<(Text, Text, Text)> {
    var i := FirstColon(s);
    if i == |s| then None
    else
      var rest := s[i + 1..];
      var j := FirstColon(rest);
      if j == |rest| then None else Some((s[..i], rest[..j], rest[j + 1..]))
  }

  /** None: MessageEncryptionError. */
  function Decrypt(c: Cipher, payload: Text): Option<Text> {
    if !IsEncrypted(payload) then Some(payload)
    else
      var parts := Split3(payload);
      if parts.None? || parts.value.0 != PREFIX then None
      else
        var nonce, sealed := Decode64(parts.value.1), Decode64(parts.value.2);
        if nonce.None? || sealed.None? then None
        else
          var plain := c.unseal(nonce.value, sealed.value);
          if plain.None? then None else DecodeStrict(plain.value)
  }

  lemma FirstColonOf(a: Text, rest: Text)
    requires COLON !in a
    ensures FirstColon(a + [COLON] + rest) == |a|
    ensures (a + [COLON] + rest)[..|a|] == a && (a + [COLON] + rest)[|a| + 1..] == rest
  {
    var s := a + [COLON] + rest;
    assert s[|a|] == COLON;
    assert forall k :: 0 <= k < |a| ==> s[k] == a[k];
  }

  lemma SplitJoin(a: Text, b: Text, rest: Text)
    requires COLON !in a && COLON !in b
    ensures Split3(a + [COLON] + (b + [COLON] + rest)) == Some((a, b, rest))
  {
    FirstColonOf(a, b + [COLON] + rest);
    FirstColonOf(b, rest);
  }

  /** The three parts of an encrypted value. */
  lemma EncryptSplits(c: Cipher, nonce: Nonce, plaintext: Text)
    ensures IsEncrypted(Encrypt(c, nonce, plaintext))
    ensures Split3(Encrypt(c, nonce, plaintext)) == Some((PREFIX, Encode64(nonce), Encode64(c.seal(nonce, Encode(plaintext)))))
  {
    var b, rest := Encode64(nonce), Encode64(c.seal(nonce, Encode(plaintext)));
    DecodeEncode64(nonce);
    SplitJoin(PREFIX, b, rest);
    HeadOfJoin(PREFIX + [COLON], b, rest);
  }

  lemma HeadOfJoin(head: Text, b: Text, rest: Text)
    ensures head + b + [COLON] + rest == head + (b + [COLON] + rest)
    ensures head <= head + b + [COLON] + rest
  {
  }

  /** Decrypting undoes encrypting for every plaintext, also one that itself
      starts like an encrypted value. */
  lemma DecryptEncrypt(c: Cipher, nonce: Nonce, plaintext: Text)
    requires Lawful(c)
    ensures IsEncrypted(Encrypt(c, nonce, plaintext))
    ensures Decrypt(c, Encrypt(c, nonce, plaintext)) == Some(plaintext)
  {
    var e := Encrypt(c, nonce, plaintext);
    EncryptSplits(c, nonce, plaintext);
    DecodeEncode64(nonce);
    DecodeEncode64(c.seal(nonce, Encode(plaintext)));
    DecodeEncode(plaintext);
  }

  /** Only a value that starts with the prefix and its colon is taken for an
      encrypted one; any other is read as it is. */
  lemma PlainIsReadAsItIs(c: Cipher, value: Text)
    requires |value| <= |PREFIX| || value[..|PREFIX|] != PREFIX || value[|PREFIX|] != COLON
    ensures !IsEncrypted(value) && Decrypt(c, value) == Some(value)
  {
  }

  /** The prefix and its colon alone are taken for an encrypted value, which does
      not decrypt. */
  lemma BarePrefixIsUnreadable(c: Cipher)
    ensures IsEncrypted(PREFIX + [COLON]) && Decrypt(c, PREFIX + [COLON]).None?
  {
    var s := PREFIX + [COLON];
    FirstColonOf(PREFIX, []);
    assert PREFIX + [COLON] + [] == s;
    assert s[|PREFIX| + 1..] == [];
  }

  lemma {:induction false} DecodedIsShorter(b: Bytes)
    requires DecodeStrict(b).Some?
    ensures |DecodeStrict(b).value| <= |b|
    decreases |b|
  {
    if b != [] { DecodedIsShorter(b[DecodeOne(b).value.1..]); }
  }

  /** What a prefixed value decrypts to is shorter than the value. */
  lemma DecryptShrinks(c: Cipher, payload: Text)
    requires Lawful(c) && IsEncrypted(payload) && Decrypt(c, payload).Some?
    ensures |Decrypt(c, payload).value| < |payload|
  {
    var parts := Split3(payload).value;
    var plain := c.unseal(Decode64(parts.1).value, Decode64(parts.2).value).value;
    DecodedIsShorter(plain);
  }

  /** The three operations of a MessageEncryptor with its key. */
  datatype Encryptor = Encryptor(isEncrypted: Text -> bool, encrypt: (Nonce, Text) -> Text, decrypt: Text -> Option<Text>)

  function MessageEncryptor(c: Cipher): Encryptor {
    Encryptor(IsEncrypted, (nonce, plaintext) => Encrypt(c, nonce, plaintext), payload => Decrypt(c, payload))
  }

  /** What the rest of the program relies on. */
  ghost predicate LawfulEncryptor(e: Encryptor) {
    && (forall nonce: Nonce, p :: e.isEncrypted(e.encrypt(nonce, p)) && e.decrypt(e.encrypt(nonce, p)) == Some(p))
    && (forall x :: e.isEncrypted(x) && e.decrypt(x).Some? ==> |e.decrypt(x).value| < |x|)
    && (forall x :: !e.isEncrypted(x) ==> e.decrypt(x) == Some(x))
  }

  lemma EncryptorIsLawful(c: Cipher)
    requires Lawful(c)
    ensures LawfulEncryptor(MessageEncryptor(c))
  {
    var e := MessageEncryptor(c);
    forall nonce: Nonce, p ensures e.isEncrypted(e.encrypt(nonce, p)) && e.decrypt(e.encrypt(nonce, p)) == Some(p) {
      DecryptEncrypt(c, nonce, p);
    }
    forall x | e.isEncrypted(x) && e.decrypt(x).Some? ensures |e.decrypt(x).value| < |x| {
      DecryptShrinks(c, x);
    }
    forall x | !e.isEncrypted(x) ensures e.decrypt(x) == Some(x) {
      assert !IsEncrypted(x);
    }
  }
}
