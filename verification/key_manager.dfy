/**
 * The key manager's pure part (src/key_manager.py): where key files go,
 * the public key as a JSON Web Key of type OKP (section 2 of RFC 8037), and
 * the `{"keys": [...]}` document that publishes it.  Generating keys and
 * reading or writing PEM files are not part of this model; the public key
 * enters as its raw bytes.
 */
module Keys {

  import opened Wrappers
  import opened JsonValues
  import opened Strings
  import Base64

  /**
   * `Path(dir) / name`: an absolute `name` replaces the directory.  The name
   * always ends the path; a relative one follows the directory and a `/`.
   */
  function JoinPath(dir: string, name: string): (path: string)
    ensures StartsWith(name, "/") ==> path == name
    ensures !StartsWith(name, "/") ==> path == dir + "/" + name
    ensures |name| <= |path| && path[|path| - |name|..] == name
    ensures !StartsWith(name, "/") ==> StartsWith(path, dir + "/")
  {
    if StartsWith(name, "/") then name else dir + "/" + name
  }

  const PrivateSuffix: string := "_private.pem"
  const PublicSuffix: string := "_public.pem"

  /** The private-key file: its name is the key id followed by `_private.pem`. */
  function PrivateKeyPath(keysDir: string, keyId: string): (path: string)
    ensures |keyId + PrivateSuffix| <= |path|
    ensures path[|path| - |keyId + PrivateSuffix|..] == keyId + PrivateSuffix
  {
    JoinPath(keysDir, keyId + PrivateSuffix)
  }

  /** The public-key file: its name is the key id followed by `_public.pem`. */
  function PublicKeyPath(keysDir: string, keyId: string): (path: string)
    ensures |keyId + PublicSuffix| <= |path|
    ensures path[|path| - |keyId + PublicSuffix|..] == keyId + PublicSuffix
  {
    JoinPath(keysDir, keyId + PublicSuffix)
  }

  /** No private-key file name is ever a public-key file name, whatever the directories and key ids. */
  lemma PrivateNeverPublic(dir1: string, keyId1: string, dir2: string, keyId2: string)
    ensures PrivateKeyPath(dir1, keyId1) != PublicKeyPath(dir2, keyId2)
  {
    var p, q := PrivateKeyPath(dir1, keyId1), PublicKeyPath(dir2, keyId2);
    assert p[|p| - 5] == 'e' by {
      assert p[|p| - 12..] == PrivateSuffix;
    }
    assert q[|q| - 5] == 'c' by {
      assert q[|q| - 11..] == PublicSuffix;
    }
  }

  /**
   * In one directory, different key ids that are single path components
   * (no `/` in them) give different private-key files.
   */
  lemma PrivateKeyPathInjective(keysDir: string, keyId1: string, keyId2: string)
    requires '/' !in keyId1 && '/' !in keyId2
    requires PrivateKeyPath(keysDir, keyId1) == PrivateKeyPath(keysDir, keyId2)
    ensures keyId1 == keyId2
  {
    var p := PrivateKeyPath(keysDir, keyId1);
    assert !StartsWith(keyId1 + PrivateSuffix, "/") by {
      if |keyId1| == 0 { assert (keyId1 + PrivateSuffix)[0] == '_'; }
      else { assert (keyId1 + PrivateSuffix)[0] == keyId1[0]; }
    }
    assert !StartsWith(keyId2 + PrivateSuffix, "/") by {
      if |keyId2| == 0 { assert (keyId2 + PrivateSuffix)[0] == '_'; }
      else { assert (keyId2 + PrivateSuffix)[0] == keyId2[0]; }
    }
    assert keyId1 == p[|keysDir| + 1..|p| - 12];
    assert keyId2 == p[|keysDir| + 1..|p| - 12];
  }

  /** The `x` member: the raw key in base64url with every trailing `=` stripped. */
  function JwkX(raw: seq<Base64.byte>): (x: string)
    ensures Base64.Pad !in x
    ensures forall i :: 0 <= i < |x| ==> Base64.IsAlphabetChar(x[i], Base64.UrlSafe)
  {
    Base64.StripPadding(raw, Base64.UrlSafe);
    RStrip(Base64.Encode(raw, Base64.UrlSafe), Base64.Pad)
  }

  /** An Ed25519 public key is 32 bytes, so `x` is always 43 characters long. */
  lemma JwkXLength(raw: seq<Base64.byte>)
    requires |raw| == 32
    ensures |JwkX(raw)| == 43
  {
    Base64.StripPadding(raw, Base64.UrlSafe);
  }

  /** Re-padding `x` to a multiple of four characters and decoding it gives back the raw key. */
  lemma JwkXRoundTrip(raw: seq<Base64.byte>)
    ensures Base64.Decode(Base64.Repad(JwkX(raw)), Base64.UrlSafe) == Some(raw)
  {
    Base64.StripPadding(raw, Base64.UrlSafe);
    Base64.RepadUnpadded(raw, Base64.UrlSafe);
    Base64.DecodeEncode(raw, Base64.UrlSafe);
  }

  /** `export_public_key_jwk`: the OKP key for signatures with EdDSA over Ed25519. */
  function ExportPublicKeyJwk(raw: seq<Base64.byte>, keyId: string): (jwk: map<string, Json>)
    ensures jwk.Keys == {"kid", "kty", "alg", "crv", "x", "use"}
    ensures jwk["kid"] == JStr(keyId)
    ensures jwk["kty"] == JStr("OKP") && jwk["alg"] == JStr("EdDSA")
    ensures jwk["crv"] == JStr("Ed25519") && jwk["use"] == JStr("sig")
    ensures jwk["x"].JStr? && Base64.Decode(Base64.Repad(jwk["x"].s), Base64.UrlSafe) == Some(raw)
  {
    JwkXRoundTrip(raw);
    map["kid" := JStr(keyId), "kty" := JStr("OKP"), "alg" := JStr("EdDSA"),
        "crv" := JStr("Ed25519"), "x" := JStr(JwkX(raw)), "use" := JStr("sig")]
  }

  const DefaultJwkFileName: string := "public_keys.json"

  /**
   * `save_public_jwk_file`, without the write: the path written to (the
   * given one, or `public_keys.json` in the keys directory when none is
   * given) and the document written there, which holds exactly this key.
   */
  function PublicKeysFile(keysDir: string, raw: seq<Base64.byte>, keyId: string, outputPath: Option<string>)
    : (file: (string, Json))
    ensures file.0 == if outputPath.None? then keysDir + "/" + DefaultJwkFileName else outputPath.value
    ensures file.1.JObj? && file.1.fields.Keys == {"keys"}
    ensures file.1.fields["keys"] == JArr([JObj(ExportPublicKeyJwk(raw, keyId))])
  {
    assert !StartsWith(DefaultJwkFileName, "/") by {
      assert DefaultJwkFileName[0] == 'p';
      assert DefaultJwkFileName[..1][0] == 'p';
    }
    var path := if outputPath.None? then JoinPath(keysDir, DefaultJwkFileName) else outputPath.value;
    var jwk := ExportPublicKeyJwk(raw, keyId);
    (path, JObj(map["keys" := JArr([JObj(jwk)])]))
  }
}
