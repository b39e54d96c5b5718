/**
 * Ed25519 keys kept in the keychain
 * (ShinobiTerm/ShinobiTerm/Services/SSHKeyService.swift): the OpenSSH
 * public-key line and fingerprint built from the key blob, the errors of
 * loading and deleting a key, and the listing of stored keys.
 *
 * The blob is the `ssh-ed25519` public key format of section 4 of RFC 8709:
 * the key type and the key, each as an SSH `string` (section 5 of RFC 4251),
 * and the line is the format of section 6.6 of RFC 4253 as OpenSSH writes it.
 * Keychain queries, the derivation of a public key from a private one and
 * SHA-256 are parameters.
 */
module SshKeyService {
  import opened Wrappers
  import opened SwiftText
  import Base64

  const KeyType: string := "ssh-ed25519"
  const UInt32Limit: int := 0x1_0000_0000

  /** `errSecSuccess` and `errSecItemNotFound`. */
  const ErrSecSuccess: int := 0
  const ErrSecItemNotFound: int := -25300

  /** The length of a raw Curve25519 key, public or private. */
  const RawKeyLength: nat := 32
  type RawKey = s: seq<Byte> | |s| == RawKeyLength witness seq(32, _ => 0)

  datatype SshKeyError = KeyNotFound | KeychainError(status: int) | InvalidKeyData

  function ErrorDescription(e: SshKeyError): string {
    match e
    case KeyNotFound => "SSH key not found"
    case KeychainError(status) => "Keychain error: " + IntToString(status)
    case InvalidKeyData => "Invalid key data"
  }

  datatype SshKeyInfo = SshKeyInfo(id: string, name: string, publicKey: string, fingerprint: string, createdAt: int)

  // ------------------------------------------------------------ the blob

  /** `UInt32(n).bigEndian` as four bytes, most significant first. */
  function BigEndian32(n: int): (r: seq<Byte>)
    requires 0 <= n < UInt32Limit
    ensures |r| == 4
  {
    [n / 0x100_0000, (n / 0x1_0000) % 0x100, (n / 0x100) % 0x100, n % 0x100]
  }

  function DecodeBigEndian32(b: seq<Byte>): (n: int)
    requires |b| == 4
    ensures 0 <= n < UInt32Limit
  {
    ((b[0] as int * 0x100 + b[1]) * 0x100 + b[2]) * 0x100 + b[3]
  }

  /** The four-byte prefix gives back the length, and every four bytes are some prefix. */
  lemma BigEndian32RoundTrip(n: int, b: seq<Byte>)
    requires 0 <= n < UInt32Limit && |b| == 4
    ensures DecodeBigEndian32(BigEndian32(n)) == n
    ensures BigEndian32(DecodeBigEndian32(b)) == b
  {
    var m := DecodeBigEndian32(b);
    assert m / 0x100 == (b[0] as int * 0x100 + b[1]) * 0x100 + b[2];
    assert m / 0x1_0000 == b[0] as int * 0x100 + b[1];
    assert m / 0x100_0000 == b[0];
  }

  /** An SSH `string`: its length as a big-endian `uint32`, then its bytes. */
  function StringField(data: seq<Byte>): (r: seq<Byte>)
    requires |data| < UInt32Limit
    ensures |r| == 4 + |data|
  {
    BigEndian32(|data|) + data
  }

  /** Reads one SSH `string` off the front: its bytes and what follows. */
  function ReadStringField(b: seq<Byte>): Option<(seq<Byte>, seq<Byte>)> {
    if |b| < 4 then None
    else
      var n := DecodeBigEndian32(b[..4]);
      if |b| - 4 < n then None else Some((b[4..4 + n], b[4 + n..]))
  }

  lemma ReadStringFieldRoundTrip(data: seq<Byte>, rest: seq<Byte>)
    requires |data| < UInt32Limit
    ensures ReadStringField(StringField(data) + rest) == Some((data, rest))
  {
    var b := StringField(data) + rest;
    assert b[..4] == BigEndian32(|data|);
    BigEndian32RoundTrip(|data|, b[..4]);
    assert b[4..4 + |data|] == data;
    assert b[4 + |data|..] == rest;
  }

  /** The public key blob: the key type, then the key. */
  function KeyBlob(key: seq<Byte>): seq<Byte>
    requires |key| < UInt32Limit
  {
    KeyTypeBytes();
    StringField(Utf8(KeyType)) + StringField(key)
  }

  lemma KeyTypeBytes()
    ensures |Utf8(KeyType)| == 11
  {
    Utf8Ascii(KeyType);
  }

  /**
   * The blob reads back as the key type and the key, with nothing left over;
   * for a Curve25519 key it is 51 bytes.
   */
  lemma KeyBlobLayout(key: seq<Byte>)
    requires |key| < UInt32Limit
    ensures var b := KeyBlob(key);
      && |b| == 19 + |key|
      && ReadStringField(b) == Some((Utf8(KeyType), StringField(key)))
      && ReadStringField(StringField(key)) == Some((key, []))
    ensures |key| == RawKeyLength ==> |KeyBlob(key)| == 51
  {
    KeyTypeBytes();
    ReadStringFieldRoundTrip(Utf8(KeyType), StringField(key));
    ReadStringFieldRoundTrip(key, []);
    assert StringField(key) + [] == StringField(key);
  }

  /** The blob built the way the service builds it: four appends to an empty buffer. */
  method BuildBlob(key: seq<Byte>) returns (blob: seq<Byte>)
    requires |key| < UInt32Limit
    ensures blob == KeyBlob(key)
  {
    var keyTypeData := Utf8(KeyType);
    KeyTypeBytes();
    blob := [];
    blob := blob + BigEndian32(|keyTypeData|);
    blob := blob + keyTypeData;
    assert blob == StringField(keyTypeData) by {
      assert [] + BigEndian32(|keyTypeData|) == BigEndian32(|keyTypeData|);
    }
    ghost var head := blob;
    blob := blob + BigEndian32(|key|);
    blob := blob + key;
    assert blob == head + StringField(key);
  }

  // ------------------------------------------------------------ line and fingerprint

  function PublicKeyLine(key: seq<Byte>, comment: string): string
    requires |key| < UInt32Limit
  {
    KeyType + " " + Base64.Encode(KeyBlob(key)) + " " + comment
  }

  /** `formatOpenSSHPublicKey`. */
  method FormatOpenSshPublicKey(key: RawKey, comment: string) returns (line: string)
    ensures line == PublicKeyLine(key, comment)
  {
    var blob := BuildBlob(key);
    line := KeyType + " " + Base64.Encode(blob) + " " + comment;
  }

  const FingerprintPrefix: string := "SHA256:"

  function Fingerprint(key: seq<Byte>, sha256: seq<Byte> -> seq<Byte>): string
    requires |key| < UInt32Limit
  {
    FingerprintPrefix + ReplaceAll(Base64.Encode(sha256(KeyBlob(key))), "=", "")
  }

  /** `computeFingerprint`. */
  method ComputeFingerprint(key: RawKey, sha256: seq<Byte> -> seq<Byte>) returns (fingerprint: string)
    ensures fingerprint == Fingerprint(key, sha256)
  {
    var blob := BuildBlob(key);
    var hash := sha256(blob);
    fingerprint := FingerprintPrefix + ReplaceAll(Base64.Encode(hash), "=", "");
  }

  /**
   * The line has three space-separated fields: the key type, the padded base
   * 64 of the blob, which has no space in it and decodes back to the blob, and
   * the comment.
   */
  lemma PublicKeyLineFields(key: seq<Byte>, comment: string) returns (middle: string)
    requires |key| < UInt32Limit
    ensures PublicKeyLine(key, comment) == KeyType + " " + middle + " " + comment
    ensures ' ' !in middle
    ensures Base64.Decode(middle) == Some(KeyBlob(key))
  {
    middle := Base64.Encode(KeyBlob(key));
    assert Base64.Decode(middle) == Some(KeyBlob(key)) by {
      Base64.DecodeEncode(KeyBlob(key));
    }
    EncodingHasNoSpace(KeyBlob(key));
  }

  lemma EncodingHasNoSpace(b: seq<Byte>)
    ensures ' ' !in Base64.Encode(b)
  {
    var e := Base64.Encode(b);
    forall i | 0 <= i < |e| ensures e[i] != ' ' {
      assert Base64.IsEncodingChar(e[i]);
    }
  }

  /** Removing the padding of an encoding leaves no `=` and drops exactly the pad characters. */
  lemma {:induction false} Unpadded(h: seq<Byte>) returns (d: string)
    ensures ReplaceAll(Base64.Encode(h), "=", "") == d
    ensures '=' !in d
    ensures |d| == 4 * ((|h| + 2) / 3) - Base64.PadCount(|h|)
  {
    ReplaceCharByNothing(Base64.Encode(h), '=');
    d := RemoveChar(Base64.Encode(h), '=');
    Base64.RemoveCharLength(Base64.Encode(h), '=');
    Base64.EncodePadding(h);
  }

  /**
   * The fingerprint is the prefix and the base 64 of the hash with its
   * padding removed; a 32-byte digest gives 43 characters after the prefix.
   */
  lemma {:induction false} FingerprintUnpadded(key: seq<Byte>, sha256: seq<Byte> -> seq<Byte>) returns (digest: string)
    requires |key| < UInt32Limit
    ensures Fingerprint(key, sha256) == FingerprintPrefix + digest
    ensures '=' !in digest
    ensures |sha256(KeyBlob(key))| == 32 ==> |digest| == 43
  {
    var h := sha256(KeyBlob(key));
    digest := Unpadded(h);
    if |h| == 32 {
      var n := |h|;
      assert (n + 2) / 3 == 11;
      assert Base64.PadCount(n) == 1;
    }
  }

  /**
   * The line and the fingerprint are made from the same blob: hashing what
   * the line's middle field decodes to gives the fingerprint.
   */
  lemma LineAndFingerprintAgree(key: seq<Byte>, comment: string, m: string, sha256: seq<Byte> -> seq<Byte>)
    requires |key| < UInt32Limit
    requires PublicKeyLine(key, comment) == KeyType + " " + m + " " + comment
    ensures Base64.Decode(m) == Some(KeyBlob(key))
    ensures Fingerprint(key, sha256) == FingerprintPrefix + RemoveChar(Base64.Encode(sha256(KeyBlob(key))), '=')
  {
    var x := PublicKeyLineFields(key, comment);
    SameMiddle(KeyType + " ", x, m, comment);
    ReplaceCharByNothing(Base64.Encode(sha256(KeyBlob(key))), '=');
  }

  lemma SameMiddle(p: string, a: string, b: string, c: string)
    requires p + a + " " + c == p + b + " " + c
    ensures a == b
  {
    var s, t := p + a + " " + c, p + b + " " + c;
    assert |a| == |b|;
    assert s[|p|..|p| + |a|] == a;
    assert t[|p|..|p| + |b|] == b;
  }

  // ------------------------------------------------------------ keychain answers

  /**
   * `loadPrivateKey`, given the status and data the keychain query returns:
   * not found, another failure, data that is not a 32-byte Curve25519 key,
   * or the key.
   */
  function LoadPrivateKey(status: int, data: Option<seq<Byte>>): (r: Result<RawKey, SshKeyError>)
    ensures r == Err(KeyNotFound) <==> status == ErrSecItemNotFound
    ensures r.Err? && r.error.KeychainError? <==>
      status != ErrSecItemNotFound && (status != ErrSecSuccess || data.None?)
    ensures r.Err? && r.error.KeychainError? ==> r.error.status == status
    ensures r == Err(InvalidKeyData) <==>
      status == ErrSecSuccess && data.Some? && |data.value| != RawKeyLength
    ensures r.Ok? ==> data == Some(r.value)
  {
    if status == ErrSecItemNotFound then Err(KeyNotFound)
    else if status != ErrSecSuccess || data.None? then Err(KeychainError(status))
    else if |data.value| != RawKeyLength then Err(InvalidKeyData)
    else Ok(data.value)
  }

  /** `deleteKey`: a missing key counts as deleted. */
  function DeleteKey(status: int): (r: Result<(), SshKeyError>)
    ensures r.Ok? <==> status == ErrSecSuccess || status == ErrSecItemNotFound
    ensures r.Err? ==> r.error == KeychainError(status)
  {
    if status == ErrSecSuccess || status == ErrSecItemNotFound then Ok(()) else Err(KeychainError(status))
  }

  /** The attributes of one stored item, each of which may be missing. */
  datatype KeyItem = KeyItem(account: Option<string>, keyLabel: Option<string>, createdAt: Option<int>)

  /** The keychain collaborators `listKeys` consults. */
  datatype KeyQueries = KeyQueries(
    lookup: string -> (int, Option<seq<Byte>>),  // status and data of the query for one key id
    publicOf: RawKey -> RawKey,                   // the public half of a private key
    sha256: seq<Byte> -> seq<Byte>)

  /** The `compactMap` closure of `listKeys`: the key's info, or nothing. */
  function ItemInfo(item: KeyItem, q: KeyQueries): (r: Option<SshKeyInfo>)
    ensures r.Some? <==>
      && item.account.Some? && item.keyLabel.Some? && item.createdAt.Some?
      && LoadPrivateKey(q.lookup(item.account.value).0, q.lookup(item.account.value).1).Ok?
    ensures r.Some? ==>
      r.value.id == item.account.value && r.value.name == item.keyLabel.value &&
      r.value.createdAt == item.createdAt.value
  {
    if item.account.None? || item.keyLabel.None? || item.createdAt.None? then None
    else
      var id := item.account.value;
      match LoadPrivateKey(q.lookup(id).0, q.lookup(id).1)
      case Err(_) => None
      case Ok(privateKey) =>
        var pub := q.publicOf(privateKey);
        Some(SshKeyInfo(id, item.keyLabel.value, PublicKeyLine(pub, item.keyLabel.value),
                        Fingerprint(pub, q.sha256), item.createdAt.value))
  }

  function InfoEntry(item: KeyItem, q: KeyQueries): (r: seq<SshKeyInfo>)
    ensures |r| <= 1 && (r != [] <==> ItemInfo(item, q).Some?)
    ensures r != [] ==> r[0] == ItemInfo(item, q).value
  {
    match ItemInfo(item, q) case None => [] case Some(info) => [info]
  }

  function CompactInfos(items: seq<KeyItem>, q: KeyQueries): seq<SshKeyInfo> {
    if items == [] then [] else InfoEntry(items[0], q) + CompactInfos(items[1..], q)
  }

  /** `listKeys`: nothing unless the query succeeds with a list of items. */
  function ListKeys(status: int, items: Option<seq<KeyItem>>, q: KeyQueries): seq<SshKeyInfo> {
    if status != ErrSecSuccess || items.None? then [] else CompactInfos(items.value, q)
  }

  /**
   * Listing keeps the stored order and drops exactly the items without an
   * account, a label or a creation date and those whose key does not load.
   */
  lemma {:induction false} ListKeysConcat(a: seq<KeyItem>, b: seq<KeyItem>, q: KeyQueries)
    ensures CompactInfos(a + b, q) == CompactInfos(a, q) + CompactInfos(b, q)
  {
    if a == [] {
      assert a + b == b;
    } else {
      assert (a + b)[1..] == a[1..] + b;
      ListKeysConcat(a[1..], b, q);
    }
  }

  lemma {:induction false} ListKeysSources(items: seq<KeyItem>, q: KeyQueries)
    ensures |CompactInfos(items, q)| <= |items|
    ensures forall info | info in CompactInfos(items, q) :: exists it | it in items :: ItemInfo(it, q) == Some(info)
  {
    if items != [] {
      ListKeysSources(items[1..], q);
      forall info | info in CompactInfos(items, q)
        ensures exists it | it in items :: ItemInfo(it, q) == Some(info)
      {
        if info in InfoEntry(items[0], q) {
          assert items[0] in items;
        } else {
          var it :| it in items[1..] && ItemInfo(it, q) == Some(info);
          assert it in items;
        }
      }
    }
  }

  /** A list of items that all load gives one entry per item, in order. */
  lemma {:induction false} ListKeysComplete(items: seq<KeyItem>, q: KeyQueries)
    requires forall i | 0 <= i < |items| :: ItemInfo(items[i], q).Some?
    ensures |CompactInfos(items, q)| == |items|
    ensures forall i | 0 <= i < |items| :: CompactInfos(items, q)[i] == ItemInfo(items[i], q).value
  {
    if items != [] {
      ListKeysComplete(items[1..], q);
    }
  }

  lemma ListKeysFailedQuery(status: int, items: Option<seq<KeyItem>>, q: KeyQueries)
    requires status != ErrSecSuccess || items.None?
    ensures ListKeys(status, items, q) == []
  {
  }
}
