/** The printer and parser of QR tokens. HMAC-SHA256 under the service's key,
    printed in hex, is an arbitrary function of the code. */
module Tokens {

  /** `strings.SplitN(token, ".", 2)`. */
  function SplitAtDot(token: string): (parts: seq<string>)
    ensures '.' !in token ==> parts == [token]
    ensures '.' in token ==> |parts| == 2 && '.' !in parts[0] && token == parts[0] + "." + parts[1]
  {
    if token == "" then [""]
    else if token[0] == '.' then ["", token[1..]]
    else
      var rest := SplitAtDot(token[1..]);
      assert token == [token[0]] + token[1..];
      [[token[0]] + rest[0]] + rest[1..]
  }

  datatype Signer = Signer(mac: string -> string) {

    function Sign(code: string): string {
      code + "." + mac(code)
    }

    function Verify(token: string): (string, bool) {
      var parts := SplitAtDot(token);
      if |parts| != 2 then ("", false)
      else if parts[1] != mac(parts[0]) then ("", false)
      else (parts[0], true)
    }
  }

  /** What hex encoding guarantees of the 32 bytes of a SHA-256 MAC. */
  ghost predicate HexMac(s: Signer) {
    forall code :: |s.mac(code)| == 64 && '.' !in s.mac(code)
  }

  /** A string splits at its first dot in one way only. */
  lemma SplitIsUnique(a: string, x: string, b: string, y: string)
    requires '.' !in a && '.' !in b && a + "." + x == b + "." + y
    ensures a == b && x == y
  {
    var t := a + "." + x;
    assert t[|a|] == '.' && t[|b|] == '.';
    assert forall i :: 0 <= i < |a| ==> t[i] in a;
    assert forall i :: 0 <= i < |b| ==> t[i] in b;
    assert t[..|a|] == a && t[|a| + 1..] == x && t[|b| + 1..] == y;
  }

  /** Verify is the exact inverse of Sign on the codes without a dot: it
      accepts their tokens and no other string, whatever the key. */
  lemma VerifyInvertsSign(s: Signer, token: string, code: string)
    ensures s.Verify(token) == (code, true) <==> token == s.Sign(code) && '.' !in code
    ensures s.Verify(token) == (code, true) <==> token == code + "." + s.mac(code) && '.' !in code
    ensures !s.Verify(token).1 ==> s.Verify(token).0 == ""
  {
    var parts := SplitAtDot(token);
    if token == s.Sign(code) {
      assert token[|code|] == '.';
      if '.' !in code {
        SplitIsUnique(parts[0], parts[1], code, s.mac(code));
      }
    }
  }

  /** A token is its code, a dot, and the 64 characters of the MAC of that code. */
  lemma TokenShape(s: Signer, code: string)
    requires HexMac(s)
    ensures var token, n := s.Sign(code), |code|;
            && |token| == n + 65 && token[..n] == code && token[n] == '.'
            && token[n + 1..] == s.mac(code) && '.' !in token[n + 1..]
  {
    assert s.Sign(code)[|code| + 1..] == s.mac(code);
  }

  /** Signing and verifying, with the keys of two services: the token is
      accepted if and only if its code has no dot and the keys agree on that code;
      and it is never accepted as the token of another code. */
  lemma SignThenVerify(s: Signer, v: Signer, code: string)
    requires HexMac(v)
    ensures v.Verify(s.Sign(code)) ==
            if '.' !in code && v.mac(code) == s.mac(code) then (code, true) else ("", false)
  {
    var token := s.Sign(code);
    var r := v.Verify(token);
    assert token[|code|] == '.';
    if r.1 {
      VerifyInvertsSign(v, token, r.0);
      if '.' in code {
        // The token would hold two dots, a verified one holds one.
        var i :| 0 <= i < |code| && code[i] == '.';
        assert token[i] == '.' && i < |code|;
        assert token == r.0 + "." + v.mac(r.0);
        OneDot(r.0, v.mac(r.0), i);
        OneDot(r.0, v.mac(r.0), |code|);
      } else {
        SplitIsUnique(r.0, v.mac(r.0), code, s.mac(code));
      }
    } else if '.' !in code {
      VerifyInvertsSign(v, v.Sign(code), code);
    }
  }

  lemma OneDot(a: string, b: string, i: nat)
    requires '.' !in a && '.' !in b && i < |a + "." + b| && (a + "." + b)[i] == '.'
    ensures i == |a|
  {
    var t := a + "." + b;
    assert forall j :: 0 <= j < |t| && j != |a| ==> t[j] in a || t[j] in b;
  }

  /** No two codes share a token, dots or not. */
  lemma SignIsInjective(s: Signer, code: string, other: string)
    requires HexMac(s) && s.Sign(code) == s.Sign(other)
    ensures code == other
  {
    assert |code| == |other|;
    assert s.Sign(code)[..|code|] == code && s.Sign(other)[..|other|] == other;
  }
}
