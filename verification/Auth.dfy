/** Inbound bearer authentication (crates/moaray/src/auth.rs). */
module Auth {
  import opened Wrappers
  import opened Errors
  import opened Utf8
  import opened Bits
  import opened Config
  import Sse
  import Sha256
  import V = Validate

  datatype AuthContext = AuthContext(keyId: string, allowModels: seq<string>)

  function XorByte(x: u8, y: u8): u8 {
    Pow2Of32();
    Bitwise(XorGate, x as int, y as int, 8) as u8
  }

  function OrByte(x: u8, y: u8): u8 {
    Pow2Of32();
    Bitwise(OrGate, x as int, y as int, 8) as u8
  }

  lemma DiffNext(diff: u8, x: u8, y: u8)
    ensures OrByte(diff, XorByte(x, y)) == 0 <==> diff == 0 && x == y
  {
    Pow2Of32();
    XorIsZeroIffEqual(x as int, y as int, 8);
    OrIsZeroIffBoth(diff as int, XorByte(x, y) as int, 8);
  }

  lemma PrefixNext(a: seq<u8>, b: seq<u8>, i: nat)
    requires i < |a| == |b|
    ensures a[..i+1] == b[..i+1] <==> a[..i] == b[..i] && a[i] == b[i]
  {
    assert a[..i+1] == a[..i] + [a[i]] && b[..i+1] == b[..i] + [b[i]];
  }

  /** The accumulated difference is zero exactly on equal secrets; the loop never stops early. */
  method CtEq(a: seq<u8>, b: seq<u8>) returns (equal: bool)
    ensures equal <==> a == b
  {
    if |a| != |b| {
      return false;
    }
    var diff: u8 := 0;
    for i := 0 to |a|
      invariant diff == 0 <==> a[..i] == b[..i]
    {
      DiffNext(diff, a[i], b[i]);
      PrefixNext(a, b, i);
      diff := OrByte(diff, XorByte(a[i], b[i]));
    }
    assert a[..|a|] == a && b[..|b|] == b;
    return diff == 0;
  }

  /** The digest the program computes of a token. */
  function DigestOf(token: string): string {
    var data := Encode(token);
    Sha256.Hex(Sha256.Words(Sha256.HashValue(Sha256.PaddedWith(data, Sha256.BitLength(data)))))
  }

  /** A token with digest `hash` opens a key if it is the key's non-empty secret, or has the key's digest. */
  predicate Opens(k: KeyConfig, token: string, hash: string) {
    match k.secret
    case Plain(p) => p != "" && p == token
    case Digest(h) => h == hash
  }

  lemma {:induction false} EncodeIsInjective(s: string, t: string)
    ensures Encode(s) == Encode(t) <==> s == t
  {
    EncodeDecodes(s);
    EncodeDecodes(t);
  }

  predicate IsFirst(keys: seq<KeyConfig>, token: string, hash: string, i: int) {
    0 <= i < |keys| && Opens(keys[i], token, hash) && forall j :: 0 <= j < i ==> !Opens(keys[j], token, hash)
  }

  predicate NoneOpens(keys: seq<KeyConfig>, token: string, hash: string) {
    forall j :: 0 <= j < |keys| ==> !Opens(keys[j], token, hash)
  }

  function ContextOf(k: KeyConfig): AuthContext { AuthContext(k.id, k.allowModels) }

  /** The caller is known by the key's id and may use the key's models. */
  predicate SpeaksFor(ctx: AuthContext, k: KeyConfig) { ctx.keyId == k.id && ctx.allowModels == k.allowModels }

  /** The first configured key that the trimmed token opens; a blank token or one that opens none is refused. */
  method Authenticate(keys: seq<KeyConfig>, presented: string) returns (r: Result<AuthContext, Error>)
    ensures var token := Sse.Trim(presented);
      match r
      case Ok(ctx) => token != "" && (exists i :: IsFirst(keys, token, DigestOf(token), i) && SpeaksFor(ctx, keys[i]))
      case Err(e) => e == InvalidApiKey && (token == "" || NoneOpens(keys, token, DigestOf(token)))
  {
    var token := Sse.Trim(presented);
    if token == "" {
      return Err(InvalidApiKey);
    }
    var presentedHash := Hashed(token);
    r := FirstMatch(keys, token, presentedHash);
  }

  /** The loop over the keys. */
  method FirstMatch(keys: seq<KeyConfig>, token: string, hash: string) returns (r: Result<AuthContext, Error>)
    ensures match r
      case Ok(ctx) => exists i :: IsFirst(keys, token, hash, i) && SpeaksFor(ctx, keys[i])
      case Err(e) => e == InvalidApiKey && NoneOpens(keys, token, hash)
  {
    for i := 0 to |keys|
      invariant NoneOpens(keys[..i], token, hash)
    {
      var matched := Matches(keys[i], token, hash);
      assert forall j :: 0 <= j < i ==> keys[..i][j] == keys[j];
      if matched {
        assert IsFirst(keys, token, hash, i) && SpeaksFor(ContextOf(keys[i]), keys[i]);
        return Ok(ContextOf(keys[i]));
      }
    }
    assert keys[..|keys|] == keys;
    return Err(InvalidApiKey);
  }

  method Hashed(token: string) returns (hash: string)
    ensures hash == DigestOf(token)
  {
    hash := Sha256.Digest(Encode(token));
  }

  method Matches(k: KeyConfig, token: string, hash: string) returns (matched: bool)
    ensures matched <==> Opens(k, token, hash)
  {
    match k.secret {
      case Plain(p) =>
        EncodeIsInjective(p, token);
        matched := CtEq(Encode(p), Encode(token));
        matched := p != "" && matched;
      case Digest(h) =>
        EncodeIsInjective(h, hash);
        matched := CtEq(Encode(h), Encode(hash));
    }
  }

  lemma {:induction false} LowerHexStays(s: string)
    requires Sha256.AllLowerHex(s)
    ensures V.Lower(s) == s
  {
    if s != [] {
      assert forall i :: 0 <= i < |s| - 1 ==> s[1..][i] == s[i+1];
      LowerHexStays(s[1..]);
      assert Sha256.IsLowerHex(s[0]);
      assert s == [s[0]] + s[1..];
    }
  }

  lemma DigestIsLower(token: string)
    ensures V.Lower(DigestOf(token)) == DigestOf(token)
  {
    var data := Encode(token);
    Sha256.DigestText(Sha256.HashValue(Sha256.PaddedWith(data, Sha256.BitLength(data))));
    LowerHexStays(DigestOf(token));
  }

  /** A key configured by digest opens for exactly the tokens with that digest, in whatever letter case it was written. */
  lemma ConfiguredDigestOpens(doc: V.KeyDoc, env: V.EnvSource, k: KeyConfig, token: string)
    requires V.ToKey(doc, env) == Ok(k) && doc.keySha256.Some?
    ensures Opens(k, token, DigestOf(token)) <==> V.Lower(doc.keySha256.value) == V.Lower(DigestOf(token))
  {
    DigestIsLower(token);
  }

  /** A key configured by a variable that is unset or empty opens for no token. */
  lemma UnsetKeyNeverOpens(doc: V.KeyDoc, env: V.EnvSource, k: KeyConfig, token: string)
    requires V.ToKey(doc, env) == Ok(k) && doc.keyEnv.Some?
    ensures Opens(k, token, DigestOf(token)) <==> env(doc.keyEnv.value) == Some(token) && token != ""
  {
  }
}
