/** Bearer-header parsing and the JWT service of the session layer.  The
    signing library is abstract: a `Signer` pairs a signing function with a
    checking function that may reject any token (bad signature, expiry,
    malformed input). */
module Tokens {
  import opened Wrappers
  import opened Schema

  /** The claims a session token carries. */
  datatype JWTPayload = JWTPayload(userId: int, email: string, role: Role)

  /** `jwt.sign(payload, secret, {expiresIn})` and `jwt.verify(token, secret)`. */
  datatype Signer = Signer(
    sign: (JWTPayload, string, string) -> string,
    verify: (string, string) -> Option<JWTPayload>)

  /** A signer that accepts the tokens it has just issued under the same secret. */
  ghost predicate AcceptsOwnTokens(s: Signer)
  {
    forall p, secret, ttl :: s.verify(s.sign(p, secret, ttl), secret) == Some(p)
  }

  const DefaultExpiresIn: string := "24h"

  datatype TokenError = SecretMissing | InvalidOrExpired {
    function Message(): string {
      match this
      case SecretMissing => "JWT_SECRET environment variable is not set"
      case InvalidOrExpired => "Invalid or expired token"
    }
  }

  /** `if (!secret)`: both an unset and an empty JWT_SECRET count as missing. */
  predicate SecretConfigured(secret: Option<string>)
  {
    secret.Some? && secret.value != ""
  }

  function GenerateToken(payload: JWTPayload, expiresIn: string, secret: Option<string>, signer: Signer)
    : (r: Result<string, TokenError>)
    ensures r.Err? <==> !SecretConfigured(secret)
    ensures r.Err? ==> r.error == SecretMissing
    ensures r.Ok? ==> r.value == signer.sign(payload, secret.value, expiresIn)
  {
    if !SecretConfigured(secret) then Err(SecretMissing)
    else Ok(signer.sign(payload, secret.value, expiresIn))
  }

  function VerifyToken(token: string, secret: Option<string>, signer: Signer)
    : (r: Result<JWTPayload, TokenError>)
    ensures !SecretConfigured(secret) ==> r == Err(SecretMissing)
    ensures SecretConfigured(secret) ==>
      r == (if signer.verify(token, secret.value).Some?
            then Ok(signer.verify(token, secret.value).value) else Err(InvalidOrExpired))
  {
    if !SecretConfigured(secret) then Err(SecretMissing)
    else
      match signer.verify(token, secret.value)
      case Some(p) => Ok(p)
      case None => Err(InvalidOrExpired)
  }

  /** A token issued under a configured secret verifies to the claims it was issued for. */
  lemma TokenRoundTrip(payload: JWTPayload, expiresIn: string, secret: Option<string>, signer: Signer)
    requires AcceptsOwnTokens(signer) && SecretConfigured(secret)
    ensures GenerateToken(payload, expiresIn, secret, signer).Ok?
    ensures VerifyToken(GenerateToken(payload, expiresIn, secret, signer).value, secret, signer) == Ok(payload)
  {
    assert signer.verify(signer.sign(payload, secret.value, expiresIn), secret.value) == Some(payload);
  }

  /** Every way verification can fail is reported as one of the two errors,
      and once a secret is configured as the single "Invalid or expired token". */
  lemma VerifyFailureCollapses(token: string, secret: Option<string>, signer: Signer)
    requires SecretConfigured(secret)
    ensures VerifyToken(token, secret, signer).Err? ==>
      VerifyToken(token, secret, signer).error.Message() == "Invalid or expired token"
  {
  }

  // ----- Header parsing -----

  /** Lower-cases ASCII letters and leaves every other character alone.  For
      the comparison with "bearer" this is the same as JavaScript's
      `toLowerCase`, since no other character lower-cases to one of `b e a r`. */
  function AsciiLower(s: string): (r: string)
    ensures |r| == |s|
    ensures forall i :: 0 <= i < |s| ==> r[i] == LowerChar(s[i])
  {
    if s == [] then [] else [LowerChar(s[0])] + AsciiLower(s[1..])
  }

  function LowerChar(c: char): char
  {
    if 'A' <= c <= 'Z' then (c as int + 32) as char else c
  }

  /** Position of the first space. */
  function IndexOfSpace(s: string): (i: nat)
    requires ' ' in s
    ensures i < |s| && s[i] == ' ' && ' ' !in s[..i]
  {
    if s[0] == ' ' then 0
    else
      var i := IndexOfSpace(s[1..]);
      assert s[1..][..i] == s[1..i + 1];
      1 + i
  }

  /** `s.split(" ")`: the pieces between single spaces, empty pieces included. */
  function SplitOnSpace(s: string): (parts: seq<string>)
    ensures |parts| >= 1
    ensures forall k :: 0 <= k < |parts| ==> ' ' !in parts[k]
    decreases |s|
  {
    if ' ' !in s then [s]
    else
      var i := IndexOfSpace(s);
      [s[..i]] + SplitOnSpace(s[i + 1..])
  }

  /** Glues pieces back together with single spaces. */
  function JoinWithSpace(parts: seq<string>): string
    requires |parts| >= 1
  {
    if |parts| == 1 then parts[0] else parts[0] + " " + JoinWithSpace(parts[1..])
  }

  /** Splitting loses nothing. */
  lemma {:induction false} SplitJoin(s: string)
    ensures JoinWithSpace(SplitOnSpace(s)) == s
    decreases |s|
  {
    if ' ' in s {
      var i := IndexOfSpace(s);
      SplitJoin(s[i + 1..]);
      assert s == s[..i] + " " + s[i + 1..];
    }
  }

  /** Splitting a space-free scheme, a space and a space-free token. */
  lemma SplitTwo(a: string, b: string)
    requires ' ' !in a && ' ' !in b
    ensures SplitOnSpace(a + " " + b) == [a, b]
  {
    var s := a + " " + b;
    assert s[|a|] == ' ';
    var i := IndexOfSpace(s);
    assert s[..i] == a;
    assert s[i + 1..] == b;
  }

  /** `extractTokenFromHeader`: the second piece of a two-piece "Bearer" header. */
  function ExtractTokenFromHeader(authHeader: Option<string>): (token: Option<string>)
    ensures token.Some? ==> authHeader.Some? && authHeader.value != "" && ' ' !in token.value
  {
    if authHeader.None? || authHeader.value == "" then None
    else
      var parts := SplitOnSpace(authHeader.value);
      if |parts| != 2 || AsciiLower(parts[0]) != "bearer" then None
      else Some(parts[1])
  }

  /** A token comes from a "bearer" scheme, one space and the token itself. */
  lemma ExtractedTokenShape(header: string, t: string)
    requires ExtractTokenFromHeader(Some(header)) == Some(t)
    ensures |header| >= 7 && AsciiLower(header[..6]) == "bearer" && header[6] == ' '
    ensures header[7..] == t && ' ' !in t
  {
    var parts := SplitOnSpace(header);
    assert |parts| == 2 && AsciiLower(parts[0]) == "bearer" && parts[1] == t;
    SplitJoin(header);
    assert JoinWithSpace(parts) == parts[0] + " " + parts[1] by {
      assert parts[1..] == [parts[1]];
    }
    assert |parts[0]| == 6;
    assert header == parts[0] + " " + t;
    assert header[..6] == parts[0];
  }

  /** A "bearer" scheme, one space and a space-free token yield that token. */
  lemma BearerHeaderYields(header: string, t: string)
    requires |header| >= 7 && AsciiLower(header[..6]) == "bearer" && header[6] == ' '
    requires header[7..] == t && ' ' !in t
    ensures ExtractTokenFromHeader(Some(header)) == Some(t)
  {
    var scheme := header[..6];
    assert ' ' !in scheme by {
      forall k | 0 <= k < 6 ensures scheme[k] != ' ' {
        assert AsciiLower(scheme)[k] == "bearer"[k];
      }
    }
    assert header == scheme + " " + t;
    SplitTwo(scheme, t);
  }

  /** A header yields token `t` exactly when it is a case-insensitive "bearer",
      one space, and `t` with no further space; an absent or empty header yields
      nothing. */
  lemma ExtractTokenExactly(header: string, t: string)
    ensures ExtractTokenFromHeader(Some(header)) == Some(t) <==>
      (|header| >= 7 && AsciiLower(header[..6]) == "bearer" && header[6] == ' '
       && header[7..] == t && ' ' !in t)
  {
    if ExtractTokenFromHeader(Some(header)) == Some(t) {
      ExtractedTokenShape(header, t);
    }
    if |header| >= 7 && AsciiLower(header[..6]) == "bearer" && header[6] == ' '
       && header[7..] == t && ' ' !in t {
      BearerHeaderYields(header, t);
    }
  }

  /** The edge cases of the header format: absent, empty, no token, a double space. */
  lemma ExtractTokenRejects()
    ensures ExtractTokenFromHeader(None) == None
    ensures ExtractTokenFromHeader(Some("")) == None
    ensures ExtractTokenFromHeader(Some("Bearer")) == None
    ensures ExtractTokenFromHeader(Some("Bearer  x")) == None
  {
    var h := "Bearer  x";
    if ExtractTokenFromHeader(Some(h)).Some? {
      ExtractTokenExactly(h, ExtractTokenFromHeader(Some(h)).value);
    }
  }

  /** The scheme is matched case-insensitively, and the token may be empty. */
  lemma ExtractTokenAccepts()
    ensures ExtractTokenFromHeader(Some("BEARER t")) == Some("t")
    ensures ExtractTokenFromHeader(Some("Bearer ")) == Some("")
  {
    assert "BEARER t"[..6] == "BEARER" && AsciiLower("BEARER") == "bearer";
    ExtractTokenExactly("BEARER t", "t");
    assert "Bearer "[..6] == "Bearer" && AsciiLower("Bearer") == "bearer";
    ExtractTokenExactly("Bearer ", "");
  }
}
