/** The encrypted container of src/encryption.py: a 4-byte magic tag, a 16-byte
    salt, a 12-byte nonce and the AEAD ciphertext with its 16-byte tag, the key
    being derived from the password and the salt by PBKDF2-HMAC-SHA256.

    The three library primitives are not implemented here. They are the fields
    of a `Crypto` value, and `Lawful` states what is assumed of them: PBKDF2
    (RFC 8018, section 5.2) returns as many bytes as asked; AES-GCM (NIST SP
    800-38D) with a 32-byte key and a 12-byte nonce appends a 16-byte tag, opens
    what it sealed, and opens nothing shorter than a tag; SHA-256 (FIPS 180-4)
    returns 32 bytes. Salt and nonce, drawn from `os.urandom` in the source, are
    parameters. */
module Encryption {

  import opened Wrappers
  import opened Seqs
  import opened Bytes

  const MAGIC: seq<byte> := [0x46, 0x41, 0x31, 0x00]  // "FA1\0"
  const SALT_SIZE: nat := 16
  const NONCE_SIZE: nat := 12
  const ITERATIONS: nat := 200000
  const KEY_SIZE: nat := 32
  const TAG_SIZE: nat := 16
  const DIGEST_SIZE: nat := 32
  /** Magic, salt and nonce: the offset at which the ciphertext starts. */
  const HEADER_SIZE: nat := 32

  datatype Crypto = Crypto(
    // PBKDF2-HMAC-SHA256(password, salt, iterations, length)
    pbkdf2: (seq<byte>, seq<byte>, nat, nat) -> seq<byte>,
    // AES-GCM encryption (key, nonce, plaintext), no associated data
    seal: (seq<byte>, seq<byte>, seq<byte>) -> seq<byte>,
    // AES-GCM decryption (key, nonce, ciphertext); None where the library raises
    open: (seq<byte>, seq<byte>, seq<byte>) -> Option<seq<byte>>,
    // SHA-256
    sha256: seq<byte> -> seq<byte>)

  /** The properties of the primitives that the container relies on. */
  ghost predicate Lawful(c: Crypto) {
    && (forall pw, salt, n, len :: |c.pbkdf2(pw, salt, n, len)| == len)
    && (forall k, nonce, p :: |k| == KEY_SIZE && |nonce| == NONCE_SIZE ==>
          |c.seal(k, nonce, p)| == |p| + TAG_SIZE)
    && (forall k, nonce, p :: |k| == KEY_SIZE && |nonce| == NONCE_SIZE ==>
          c.open(k, nonce, c.seal(k, nonce, p)) == Some(p))
    && (forall k, nonce, ct :: c.open(k, nonce, ct).Some? ==>
          |ct| == |c.open(k, nonce, ct).value| + TAG_SIZE)
    && (forall m :: |c.sha256(m)| == DIGEST_SIZE)
  }

  /** A stand-in suite (the tag is the key's first 16 bytes), used only to show
      that the assumptions in `Lawful` can all hold at once. */
  function ToyCrypto(): Crypto {
    Crypto(
      (pw: seq<byte>, salt: seq<byte>, n: nat, len: nat) => seq(len, i => 0 as byte),
      (k: seq<byte>, nonce: seq<byte>, p: seq<byte>) => p + ToyTag(k),
      (k: seq<byte>, nonce: seq<byte>, ct: seq<byte>) =>
        if |ct| >= TAG_SIZE && ct[|ct| - TAG_SIZE..] == ToyTag(k) then Some(ct[..|ct| - TAG_SIZE]) else None,
      (m: seq<byte>) => seq(DIGEST_SIZE, i => 0 as byte))
  }

  function ToyTag(k: seq<byte>): (t: seq<byte>)
    ensures |t| == TAG_SIZE
  {
    seq(TAG_SIZE, i requires 0 <= i < TAG_SIZE => if i < |k| then k[i] else 0)
  }

  lemma ToyCryptoIsLawful()
    ensures Lawful(ToyCrypto())
  {
    var c := ToyCrypto();
    forall k, nonce, p | |k| == KEY_SIZE && |nonce| == NONCE_SIZE
      ensures c.open(k, nonce, c.seal(k, nonce, p)) == Some(p)
    {
      var ct := p + ToyTag(k);
      assert ct[|ct| - TAG_SIZE..] == ToyTag(k);
      assert ct[..|ct| - TAG_SIZE] == p;
    }
  }

  // ------------------------------------------------------------ key derivation

  /** `derive_key`: the password, UTF-8 encoded, stretched with the salt into a
      32-byte key; a function of (password, salt, iterations) only, with the
      iteration count defaulting to 200,000. */
  function DeriveKey(c: Crypto, password: string, salt: seq<byte>, iterations: nat := ITERATIONS): (key: seq<byte>)
    ensures Lawful(c) ==> |key| == KEY_SIZE
  {
    c.pbkdf2(Utf8Encode(password), salt, iterations, KEY_SIZE)
  }

  // --------------------------------------------------------------- framing

  /** What follows the magic tag in a blob. */
  datatype Container = Container(salt: seq<byte>, nonce: seq<byte>, ciphertext: seq<byte>)

  /** The header of a freshly sealed blob has the sizes `encrypt` draws. */
  predicate WellSized(h: Container) {
    |h.salt| == SALT_SIZE && |h.nonce| == NONCE_SIZE
  }

  /** `MAGIC + salt + nonce + ct`. */
  function Encode(h: Container): (blob: seq<byte>)
    ensures |blob| == |MAGIC| + |h.salt| + |h.nonce| + |h.ciphertext|
    ensures blob[..|MAGIC|] == MAGIC
    ensures WellSized(h) ==>
      && blob[|MAGIC|..|MAGIC| + SALT_SIZE] == h.salt
      && blob[|MAGIC| + SALT_SIZE..HEADER_SIZE] == h.nonce
      && blob[HEADER_SIZE..] == h.ciphertext
  {
    MAGIC + h.salt + h.nonce + h.ciphertext
  }

  datatype DecryptError =
    | MagicMismatch  // the ValueError raised by the magic check
    | AeadFailure    // whatever AES-GCM decryption raises (bad tag, bad nonce length)

  predicate StartsWithMagic(blob: seq<byte>) {
    |blob| >= |MAGIC| && blob[..|MAGIC|] == MAGIC
  }

  /** The slicing half of `decrypt`: only the magic tag is checked, and Python's
      slices clamp, so a short blob yields a short salt, nonce or ciphertext. */
  function Parse(blob: seq<byte>): (r: Result<Container, DecryptError>)
    ensures r.Failure? <==> !StartsWithMagic(blob)
    ensures r.Failure? ==> r.error == MagicMismatch
    ensures r.Success? ==> Encode(r.value) == blob
    ensures r.Success? ==> |r.value.salt| == if |blob| >= |MAGIC| + SALT_SIZE then SALT_SIZE else |blob| - |MAGIC|
    ensures r.Success? && |blob| >= HEADER_SIZE ==> |r.value.nonce| == NONCE_SIZE
    ensures r.Success? && |MAGIC| + SALT_SIZE <= |blob| < HEADER_SIZE ==> |r.value.nonce| == |blob| - |MAGIC| - SALT_SIZE
    ensures r.Success? && |blob| < |MAGIC| + SALT_SIZE ==> r.value.nonce == []
    ensures r.Success? ==> (|blob| >= HEADER_SIZE <==> WellSized(r.value))
    ensures r.Success? && |blob| < HEADER_SIZE ==> r.value.ciphertext == []
  {
    if !StartsWithMagic(blob) then Failure(MagicMismatch)
    else
      var pos := |MAGIC|;
      var salt := Slice(blob, pos, pos + SALT_SIZE);
      var pos := pos + SALT_SIZE;
      var nonce := Slice(blob, pos, pos + NONCE_SIZE);
      var pos := pos + NONCE_SIZE;
      var ct := Drop(blob, pos);
      assert blob == blob[..|MAGIC|] + salt + nonce + ct;
      Success(Container(salt, nonce, ct))
  }

  /** Framing round trip: slicing a blob built from a well-sized header gives
      that header back. */
  lemma ParseEncode(h: Container)
    requires WellSized(h)
    ensures Parse(Encode(h)) == Success(h)
  {
    var blob := Encode(h);
    assert Slice(blob, 4, 20) == h.salt;
    assert Slice(blob, 20, 32) == h.nonce;
    assert Drop(blob, 32) == h.ciphertext;
  }

  // ------------------------------------------------------- encrypt / decrypt

  /** `encrypt`, with the random salt and nonce passed in. */
  function Encrypt(c: Crypto, plaintext: seq<byte>, password: string, salt: seq<byte>, nonce: seq<byte>): (blob: seq<byte>)
    requires |salt| == SALT_SIZE && |nonce| == NONCE_SIZE
    ensures StartsWithMagic(blob) && |blob| >= HEADER_SIZE
    ensures blob[|MAGIC|..|MAGIC| + SALT_SIZE] == salt && blob[|MAGIC| + SALT_SIZE..HEADER_SIZE] == nonce
    ensures Lawful(c) ==> |blob| == HEADER_SIZE + |plaintext| + TAG_SIZE
  {
    var key := DeriveKey(c, password, salt);
    var ct := c.seal(key, nonce, plaintext);
    Encode(Container(salt, nonce, ct))
  }

  /** `decrypt`: reject a blob without the magic tag before any key derivation
      (the result then does not depend on the primitives at all), otherwise
      re-derive the key from the embedded salt and open the ciphertext. */
  function Decrypt(c: Crypto, blob: seq<byte>, password: string): (r: Result<seq<byte>, DecryptError>)
    ensures !StartsWithMagic(blob) ==> r == Failure(MagicMismatch)
    ensures StartsWithMagic(blob) ==> r != Failure(MagicMismatch)
  {
    var h :- Parse(blob);
    var key := DeriveKey(c, password, h.salt);
    match c.open(key, h.nonce, h.ciphertext)
    case Some(pt) => Success(pt)
    case None => Failure(AeadFailure)
  }

  /** Sealing then opening with the same password gives the plaintext back,
      whatever the salt and nonce: `decrypt` re-derives the same key from the
      salt stored in the blob. */
  lemma EncryptDecrypt(c: Crypto, plaintext: seq<byte>, password: string, salt: seq<byte>, nonce: seq<byte>)
    requires Lawful(c)
    requires |salt| == SALT_SIZE && |nonce| == NONCE_SIZE
    ensures Decrypt(c, Encrypt(c, plaintext, password, salt, nonce), password) == Success(plaintext)
  {
    var key := DeriveKey(c, password, salt);
    var h := Container(salt, nonce, c.seal(key, nonce, plaintext));
    ParseEncode(h);
  }

  /** Whatever decrypts came from a full-sized blob: 32 header bytes, then the
      plaintext's length plus a 16-byte tag. */
  lemma DecryptedShape(c: Crypto, blob: seq<byte>, password: string)
    requires Lawful(c)
    requires Decrypt(c, blob, password).Success?
    ensures |blob| == HEADER_SIZE + |Decrypt(c, blob, password).value| + TAG_SIZE
  {
    var h := Parse(blob).value;
    var key := DeriveKey(c, password, h.salt);
    assert c.open(key, h.nonce, h.ciphertext).Some?;
  }

  /** There is no length check: a blob that starts with the magic tag but is
      too short to hold a header and a tag still reaches key derivation and
      fails only in AES-GCM, not with the format error. */
  lemma TruncatedBlobFailsInAead(c: Crypto, blob: seq<byte>, password: string)
    requires Lawful(c)
    requires StartsWithMagic(blob) && |blob| < HEADER_SIZE + TAG_SIZE
    ensures Decrypt(c, blob, password) == Failure(AeadFailure)
  {
    if Decrypt(c, blob, password).Success? {
      DecryptedShape(c, blob, password);
    }
  }

  // ------------------------------------------------------------- app lock

  /** `hash_password_hex`: the SHA-256 digest of the UTF-8 password, as 64
      lower-case hexadecimal digits; no salt and no iterations are involved. */
  function HashPasswordHex(c: Crypto, password: string): (h: string)
    ensures Lawful(c) ==> |h| == 2 * DIGEST_SIZE
    ensures forall i :: 0 <= i < |h| ==> IsHexDigit(h[i])
  {
    Hex(c.sha256(Utf8Encode(password)))
  }

  /** Two passwords give the same stored hash exactly when SHA-256 gives their
      UTF-8 encodings the same digest. */
  lemma HashPasswordHexMatches(c: Crypto, p: string, q: string)
    ensures HashPasswordHex(c, p) == HashPasswordHex(c, q) <==>
            c.sha256(Utf8Encode(p)) == c.sha256(Utf8Encode(q))
  {
    HexInjective(c.sha256(Utf8Encode(p)), c.sha256(Utf8Encode(q)));
  }
}
