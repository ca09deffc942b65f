/** Request signing for the SwitchBot API: the signed message, the decimal
    timestamp, the upper-cased base64 HMAC, and the header set. */
module Signer {

  type Byte = bv8

  /** The primitives the worker borrows from its runtime, left uninterpreted:
      `TextEncoder.encode` (UTF-8), HMAC-SHA256 as keyed by
      `crypto.subtle.importKey`/`sign` (RFC 2104 over FIPS 180-4), and
      `btoa` over the raw bytes (base64, section 4 of RFC 4648). */
  datatype Crypto = Crypto(
    encode: string -> seq<Byte>,
    hmacSha256: (seq<Byte>, seq<Byte>) -> seq<Byte>,
    base64: seq<Byte> -> string)

  /** The headers sent with every SwitchBot request. */
  datatype SignedHeaders = SignedHeaders(
    authorization: string, sign: string, t: string, nonce: string, contentType: string)

  const CONTENT_TYPE := "application/json"

  /** The message that is signed: token, then timestamp, then nonce. */
  function SignedMessage(token: string, t: string, nonce: string): (m: string)
    ensures |m| == |token| + |t| + |nonce|
    ensures m[..|token|] == token
    ensures m[|token|..|token| + |t|] == t
    ensures m[|token| + |t|..] == nonce
  {
    token + t + nonce
  }

  /** With the token fixed and nonces of one length (every `randomUUID` is
      36 characters), the message determines the timestamp and the nonce. */
  lemma SignedMessageInjective(token: string, t1: string, nonce1: string, t2: string, nonce2: string)
    requires |nonce1| == |nonce2|
    requires SignedMessage(token, t1, nonce1) == SignedMessage(token, t2, nonce2)
    ensures t1 == t2 && nonce1 == nonce2
  {
    var m := SignedMessage(token, t1, nonce1);
    assert |t1| == |t2|;
    assert t1 == m[|token|..|token| + |t1|] == t2;
  }

  /** Without a fixed nonce length the split is ambiguous: the message has
      no separators. */
  lemma SignedMessageAmbiguous()
    ensures SignedMessage("tok", "12", "3") == SignedMessage("tok", "1", "23")
  {
    assert SignedMessage("tok", "12", "3") == "tok123";
    assert SignedMessage("tok", "1", "23") == "tok123";
  }

  function DigitChar(d: nat): (c: char)
    requires d < 10
    ensures '0' <= c <= '9'
  {
    ('0' as int + d) as char
  }

  predicate IsDigit(c: char) { '0' <= c <= '9' }

  function DigitValue(c: char): (d: nat)
    requires IsDigit(c)
    ensures d < 10 && DigitChar(d) == c
  {
    c as int - '0' as int
  }

  /** `Number.prototype.toString()` of a non-negative integer: decimal,
      most significant digit first, no leading zero. */
  function Decimal(n: nat): (s: string)
    ensures |s| >= 1
    ensures forall i :: 0 <= i < |s| ==> IsDigit(s[i])
    ensures |s| > 1 ==> s[0] != '0'
  {
    if n < 10 then [DigitChar(n)] else Decimal(n / 10) + [DigitChar(n % 10)]
  }

  /** The value of a string of decimal digits. */
  function DecimalValue(s: string): nat
    requires forall i :: 0 <= i < |s| ==> IsDigit(s[i])
  {
    if s == [] then 0 else DecimalValue(s[..|s| - 1]) * 10 + DigitValue(s[|s| - 1])
  }

  /** Reading the timestamp string back gives the number of milliseconds. */
  lemma {:induction false} DecimalRoundTrip(n: nat)
    ensures DecimalValue(Decimal(n)) == n
  {
    var s := Decimal(n);
    if n >= 10 {
      DecimalRoundTrip(n / 10);
      assert s[..|s| - 1] == Decimal(n / 10);
    }
  }

  /** Distinct instants give distinct timestamp strings. */
  lemma DecimalInjective(a: nat, b: nat)
    requires Decimal(a) == Decimal(b)
    ensures a == b
  {
    DecimalRoundTrip(a);
    DecimalRoundTrip(b);
  }

  predicate IsLowerAscii(c: char) { 'a' <= c <= 'z' }

  /** `toUpperCase` on one character of the base64 alphabet (ASCII). */
  function UpperChar(c: char): (u: char)
    ensures !IsLowerAscii(u)
    ensures IsLowerAscii(c) ==> u as int == c as int - 32
    ensures !IsLowerAscii(c) ==> u == c
  {
    if IsLowerAscii(c) then (c as int - 32) as char else c
  }

  /** `String.prototype.toUpperCase` restricted to ASCII. */
  function UpperAscii(s: string): (r: string)
    ensures |r| == |s|
    ensures forall i :: 0 <= i < |s| ==> r[i] == UpperChar(s[i])
  {
    if s == [] then [] else [UpperChar(s[0])] + UpperAscii(s[1..])
  }

  /** Upper-casing twice is upper-casing once, and leaves no lower-case letter. */
  lemma UpperAsciiIdempotent(s: string)
    ensures UpperAscii(UpperAscii(s)) == UpperAscii(s)
    ensures forall i :: 0 <= i < |s| ==> !IsLowerAscii(UpperAscii(s)[i])
  {
    var u := UpperAscii(s);
    assert forall i :: 0 <= i < |u| ==> UpperAscii(u)[i] == u[i];
  }

  /** `generateSignature`. */
  function Signature(crypto: Crypto, token: string, secret: string, t: string, nonce: string): (sig: string)
    ensures |sig| == |crypto.base64(crypto.hmacSha256(crypto.encode(secret), crypto.encode(SignedMessage(token, t, nonce))))|
    ensures forall i :: 0 <= i < |sig| ==>
              sig[i] == UpperChar(crypto.base64(crypto.hmacSha256(crypto.encode(secret), crypto.encode(SignedMessage(token, t, nonce))))[i])
    ensures forall i :: 0 <= i < |sig| ==> !IsLowerAscii(sig[i])
  {
    var mac := crypto.hmacSha256(crypto.encode(secret), crypto.encode(SignedMessage(token, t, nonce)));
    UpperAscii(crypto.base64(mac))
  }

  /** The signature depends on the token, timestamp and nonce only through
      their concatenation. */
  lemma SignatureDependsOnMessage(crypto: Crypto, secret: string,
                                  token1: string, t1: string, nonce1: string,
                                  token2: string, t2: string, nonce2: string)
    requires SignedMessage(token1, t1, nonce1) == SignedMessage(token2, t2, nonce2)
    ensures Signature(crypto, token1, secret, t1, nonce1) == Signature(crypto, token2, secret, t2, nonce2)
  {
  }

  /** `generateHeaders`, with `Date.now()` and `crypto.randomUUID()` passed in. */
  function Headers(crypto: Crypto, token: string, secret: string, now: nat, nonce: string): (h: SignedHeaders)
    ensures h.authorization == token && h.nonce == nonce && h.contentType == CONTENT_TYPE
    ensures forall i :: 0 <= i < |h.t| ==> IsDigit(h.t[i])
    ensures |h.t| >= 1 && (|h.t| > 1 ==> h.t[0] != '0')
    ensures DecimalValue(h.t) == now
    ensures h.sign == Signature(crypto, token, secret, h.t, nonce)
  {
    var t := Decimal(now);
    DecimalRoundTrip(now);
    SignedHeaders(token, Signature(crypto, token, secret, t, nonce), t, nonce, CONTENT_TYPE)
  }

  /** Two requests made at different instants, or with different nonces of
      the same length, sign different messages. */
  lemma HeadersSignDistinctMessages(crypto: Crypto, token: string, secret: string,
                                    now1: nat, nonce1: string, now2: nat, nonce2: string)
    requires |nonce1| == |nonce2|
    requires now1 != now2 || nonce1 != nonce2
    ensures var h1 := Headers(crypto, token, secret, now1, nonce1);
            var h2 := Headers(crypto, token, secret, now2, nonce2);
            SignedMessage(token, h1.t, h1.nonce) != SignedMessage(token, h2.t, h2.nonce)
  {
    var h1 := Headers(crypto, token, secret, now1, nonce1);
    var h2 := Headers(crypto, token, secret, now2, nonce2);
    if SignedMessage(token, h1.t, h1.nonce) == SignedMessage(token, h2.t, h2.nonce) {
      SignedMessageInjective(token, h1.t, h1.nonce, h2.t, h2.nonce);
      DecimalInjective(now1, now2);
    }
  }
}
