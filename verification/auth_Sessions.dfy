/** Stateless session tokens: session.go. Signing and base64 are parameters; the
    text around them is modelled character by character. */
module Sessions {
  import opened Collections
  import Text

  const SECOND := 1_000_000_000
  const SESSION_VERSION: string := "v1"

  /** `sign` is the keyed MAC; `encode` and `decode` are unpadded URL base64. */
  datatype Signer = Signer(ttl: int, sign: string -> seq<bv8>, encode: seq<bv8> -> string, decode: string -> Option<seq<bv8>>)
  {
    ghost predicate Valid() {
      && ttl >= 0
      && (forall bytes :: decode(encode(bytes)) == Some(bytes))
      && (forall bytes :: '.' !in encode(bytes))
    }
  }

  datatype Verdict = Valid(expires: int) | Malformed | InvalidSignature | Expired

  // ---- text ----

  function LastDot(s: string): (r: Option<nat>)
    ensures r.Some? ==> r.value < |s| && s[r.value] == '.' && '.' !in s[r.value + 1..]
    ensures r.None? ==> '.' !in s
  {
    if s == "" then None
    else if s[|s| - 1] == '.' then Some(|s| - 1)
    else
      var r := LastDot(s[..|s| - 1]);
      assert s == s[..|s| - 1] + [s[|s| - 1]];
      assert r.Some? ==> s[r.value + 1..] == s[..|s| - 1][r.value + 1..] + [s[|s| - 1]];
      r
  }

  /** strings.Split at dots. */
  function Split(s: string): seq<string> {
    match LastDot(s)
    case None => [s]
    case Some(i) => Split(s[..i]) + [s[i + 1..]]
  }

  lemma LastDotOf(a: string, b: string)
    requires '.' !in b
    ensures LastDot(a + "." + b) == Some(|a|)
    ensures (a + "." + b)[..|a|] == a && (a + "." + b)[|a| + 1..] == b
  {
    var s := a + "." + b;
    assert s[|a|] == '.' && LastDot(s).Some?;
  }

  predicate AllDigits(s: string) {
    forall c :: c in s ==> IsDigit(c)
  }

  predicate IsDigit(c: char) { '0' <= c <= '9' }

  function Value(c: char): nat
    requires IsDigit(c)
  {
    c as int - '0' as int
  }

  function Number(s: string): nat
    requires AllDigits(s)
  {
    if s == "" then 0
    else
      assert IsDigit(s[|s| - 1]) by { assert s[|s| - 1] in s; }
      Number(s[..|s| - 1]) * 10 + Value(s[|s| - 1])
  }

  const MIN_INT64 := -0x8000_0000_0000_0000
  const MAX_INT64 := 0x7fff_ffff_ffff_ffff

  /** strconv.ParseInt in base 10 with 64 bits: an optional sign, then digits. */
  function ParseInt(s: string): Option<int> {
    var signed := s != "" && (s[0] == '-' || s[0] == '+');
    var digits := if signed then s[1..] else s;
    if digits == "" || !AllDigits(digits) then None
    else
      var magnitude: int := Number(digits);
      var n := if signed && s[0] == '-' then 0 - magnitude else magnitude;
      if MIN_INT64 <= n <= MAX_INT64 then Some(n) else None
  }

  lemma {:induction false} DigitsAreNumber(n: nat)
    ensures Text.Digits(n) != "" && AllDigits(Text.Digits(n))
    ensures Number(Text.Digits(n)) == n
  {
    var last := [(n % 10) as char + '0'];
    if n < 10 {
      assert Text.Digits(n) == last && last[..0] == "";
      assert Number(last) == Number("") * 10 + n;
    } else {
      DigitsAreNumber(n / 10);
      assert (Text.Digits(n / 10) + last)[..|Text.Digits(n / 10)|] == Text.Digits(n / 10);
    }
  }

  lemma DigitsHaveNo(n: nat, c: char)
    requires !IsDigit(c)
    ensures c !in Text.Digits(n)
  {
    DigitsAreNumber(n);
  }

  lemma ParseDigits(digits: string)
    requires digits != "" && AllDigits(digits) && Number(digits) <= MAX_INT64
    ensures ParseInt(digits) == Some(Number(digits))
  {
    assert IsDigit(digits[0]) by { assert digits[0] in digits; }
  }

  lemma ParseMinus(digits: string)
    requires digits != "" && AllDigits(digits) && Number(digits) <= -MIN_INT64
    ensures ParseInt("-" + digits) == Some(0 - Number(digits))
  {
    assert ("-" + digits)[1..] == digits;
  }

  lemma FormatParses(n: int)
    requires MIN_INT64 <= n <= MAX_INT64
    ensures ParseInt(Text.Decimal(n)) == Some(n)
  {
    if n < 0 {
      DigitsParse(-n);
    } else {
      DigitsParse(n);
    }
  }

  lemma DigitsParse(n: nat)
    ensures n <= MAX_INT64 ==> ParseInt(Text.Digits(n)) == Some(n)
    ensures n <= -MIN_INT64 ==> ParseInt("-" + Text.Digits(n)) == Some(0 - n)
  {
    DigitsAreNumber(n);
    if n <= MAX_INT64 {
      ParseDigits(Text.Digits(n));
    }
    if n <= -MIN_INT64 {
      ParseMinus(Text.Digits(n));
    }
  }

  /** The texts that read as a number: digits with an optional sign. */
  predicate Reads(t: string, digits: string, e: int) {
    && digits != "" && AllDigits(digits)
    && (((t == digits || t == "+" + digits) && e == Number(digits)) || (t == "-" + digits && e == 0 - Number(digits)))
  }

  lemma ParseExactly(t: string, e: int)
    ensures ParseInt(t) == Some(e) <==> MIN_INT64 <= e <= MAX_INT64 && exists digits :: Reads(t, digits, e)
  {
    if ParseInt(t) == Some(e) {
      var digits := if t[0] == '-' || t[0] == '+' then t[1..] else t;
      assert t == [t[0]] + t[1..];
      assert Reads(t, digits, e);
    }
    if digits :| MIN_INT64 <= e <= MAX_INT64 && Reads(t, digits, e) {
      assert IsDigit(digits[0]) by { assert digits[0] in digits; }
      assert ("-" + digits)[1..] == digits && ("+" + digits)[1..] == digits;
    }
  }

  lemma NoDotInDecimal(n: int)
    ensures '.' !in Text.Decimal(n)
  {
    DigitsHaveNo(if n < 0 then -n else n, '.');
  }

  // ---- tokens ----

  function Payload(expires: int, nonce: string): string {
    SESSION_VERSION + "." + Text.Decimal(expires) + "." + nonce
  }

  /** Expiry in whole seconds; times are nanoseconds. */
  function Expiry(s: Signer, now: int): int { (now + s.ttl) / SECOND }

  function Issue(s: Signer, now: int, nonce: seq<bv8>): string {
    var payload := Payload(Expiry(s, now), s.encode(nonce));
    payload + "." + s.encode(s.sign(payload))
  }

  function Verify(s: Signer, token: string, now: int): Verdict {
    match LastDot(token)
    case None => Malformed
    case Some(i) =>
      var payload := token[..i];
      match s.decode(token[i + 1..])
      case None => Malformed
      case Some(signature) =>
        if signature != s.sign(payload) then InvalidSignature
        else VerifyPayload(s, Split(payload), now)
  }

  function VerifyPayload(s: Signer, parts: seq<string>, now: int): Verdict {
    if |parts| != 3 || parts[0] != SESSION_VERSION then Malformed
    else match ParseInt(parts[1])
      case None => Malformed
      case Some(expires) =>
        if now >= expires * SECOND then Expired
        else if expires * SECOND - now > s.ttl + SECOND then Expired
        else Valid(expires)
  }

  lemma SplitPayload(expires: int, nonce: string)
    requires MIN_INT64 <= expires <= MAX_INT64 && '.' !in nonce
    ensures Split(Payload(expires, nonce)) == [SESSION_VERSION, Text.Decimal(expires), nonce]
  {
    NoDotInDecimal(expires);
    var front := SESSION_VERSION + "." + Text.Decimal(expires);
    LastDotOf(front, nonce);
    LastDotOf(SESSION_VERSION, Text.Decimal(expires));
    assert Payload(expires, nonce) == front + "." + nonce;
    assert '.' !in SESSION_VERSION;
    assert Split(SESSION_VERSION) == [SESSION_VERSION];
    assert Split(front) == [SESSION_VERSION] + [Text.Decimal(expires)];
  }

  /** A token issued at one time verifies exactly until its truncated expiry, and
      (for a clock that has gone back) not before the lifetime would allow. */
  lemma IssuedVerifies(s: Signer, issued: int, nonce: seq<bv8>, now: int)
    requires s.Valid() && MIN_INT64 <= Expiry(s, issued) <= MAX_INT64
    ensures
      var expires := Expiry(s, issued);
      Verify(s, Issue(s, issued, nonce), now) ==
        if expires * SECOND - s.ttl - SECOND <= now < expires * SECOND then Valid(expires) else Expired
    ensures now >= issued ==>
      (Verify(s, Issue(s, issued, nonce), now).Valid? <==> now < Expiry(s, issued) * SECOND)
  {
    var expires := Expiry(s, issued);
    var payload := Payload(expires, s.encode(nonce));
    LastDotOf(payload, s.encode(s.sign(payload)));
    SplitPayload(expires, s.encode(nonce));
    assert Verify(s, Issue(s, issued, nonce), now) == VerifyPayload(s, Split(payload), now);
    PayloadVerifies(s, expires, s.encode(nonce), now);
  }

  /** A token lives for the lifetime it was issued with, less at most a second. */
  lemma IssuedLives(s: Signer, issued: int, nonce: seq<bv8>, now: int)
    requires s.Valid() && MIN_INT64 <= Expiry(s, issued) <= MAX_INT64 && issued <= now
    ensures now <= issued + s.ttl - SECOND ==> Verify(s, Issue(s, issued, nonce), now).Valid?
    ensures Verify(s, Issue(s, issued, nonce), now).Valid? ==> now < issued + s.ttl
  {
    IssuedVerifies(s, issued, nonce, now);
  }

  lemma PayloadVerifies(s: Signer, expires: int, nonce: string, now: int)
    requires MIN_INT64 <= expires <= MAX_INT64
    ensures VerifyPayload(s, [SESSION_VERSION, Text.Decimal(expires), nonce], now) ==
            if expires * SECOND - s.ttl - SECOND <= now < expires * SECOND then Valid(expires) else Expired
  {
    FormatParses(expires);
  }

  // ---- what verifies at all ----

  lemma CutAt(t: string, i: nat)
    requires i < |t| && t[i] == '.'
    ensures t == t[..i] + "." + t[i + 1..]
  {
    assert t == t[..i] + [t[i]] + t[i + 1..];
  }

  lemma SplitOff(t: string)
    ensures LastDot(t).None? ==> Split(t) == [t] && '.' !in t
    ensures LastDot(t).Some? ==>
              var i := LastDot(t).value;
              && Split(t) == Split(t[..i]) + [t[i + 1..]] && |Split(t[..i])| >= 1
              && t == t[..i] + "." + t[i + 1..] && '.' !in t[i + 1..]
  {
    if LastDot(t).Some? {
      CutAt(t, LastDot(t).value);
    }
  }

  lemma SplitOne(t: string, a: string)
    ensures Split(t) == [a] <==> t == a && '.' !in a
  {
    SplitOff(t);
  }

  lemma SplitLast(t: string, front: seq<string>, c: string) returns (r: string)
    requires front != [] && Split(t) == front + [c]
    ensures Split(r) == front && t == r + "." + c && '.' !in c
  {
    SplitOff(t);
    var i := LastDot(t).value;
    r := t[..i];
    assert Split(t)[..|Split(t)| - 1] == Split(r);
    assert (front + [c])[..|front|] == front;
  }

  /** A text splits into three parts exactly when it is them, joined by dots. */
  lemma SplitThree(t: string, a: string, b: string, c: string)
    ensures Split(t) == [a, b, c] <==> t == a + "." + b + "." + c && '.' !in a && '.' !in b && '.' !in c
  {
    if t == a + "." + b + "." + c && '.' !in a && '.' !in b && '.' !in c {
      LastDotOf(a + "." + b, c);
      LastDotOf(a, b);
      SplitOne(a, a);
    }
    if Split(t) == [a, b, c] {
      assert [a, b, c] == [a, b] + [c] && [a, b] == [a] + [b];
      var ab := SplitLast(t, [a, b], c);
      var first := SplitLast(ab, [a], b);
      SplitOne(first, a);
    }
  }

  /** The token is the version, an expiry text, a nonce and a signature text. */
  predicate Spells(token: string, expiry: string, nonce: string, signature: string) {
    && token == "v1." + expiry + "." + nonce + "." + signature
    && '.' !in expiry && '.' !in nonce && '.' !in signature
  }

  /** The signature text carries the MAC of everything before it, and the expiry is
      ahead by no more than the lifetime and a second. */
  predicate Authentic(s: Signer, expiry: string, nonce: string, signature: string, e: int, now: int) {
    && s.decode(signature) == Some(s.sign("v1." + expiry + "." + nonce))
    && ParseInt(expiry) == Some(e) && now < e * SECOND <= now + s.ttl + SECOND
  }

  /** Exactly these tokens verify, whoever made them. */
  lemma VerifiesExactly(s: Signer, token: string, now: int, e: int)
    ensures Verify(s, token, now) == Valid(e) <==>
              exists n, nonce, signature :: Spells(token, n, nonce, signature) && Authentic(s, n, nonce, signature, e, now)
  {
    if Verify(s, token, now) == Valid(e) {
      var n, nonce, signature := PartsOf(s, token, now, e);
      assert Spells(token, n, nonce, signature) && Authentic(s, n, nonce, signature, e, now);
    }
    if n, nonce, signature :| Spells(token, n, nonce, signature) && Authentic(s, n, nonce, signature, e, now) {
      PartsVerify(s, token, now, e, n, nonce, signature);
    }
  }

  lemma PartsOf(s: Signer, token: string, now: int, e: int) returns (n: string, nonce: string, signature: string)
    requires Verify(s, token, now) == Valid(e)
    ensures Spells(token, n, nonce, signature) && Authentic(s, n, nonce, signature, e, now)
  {
    var i := LastDot(token).value;
    CutAt(token, i);
    signature := token[i + 1..];
    n, nonce := PayloadParts(s, token[..i], now, e);
  }

  lemma PayloadParts(s: Signer, payload: string, now: int, e: int) returns (n: string, nonce: string)
    requires VerifyPayload(s, Split(payload), now) == Valid(e)
    ensures payload == "v1." + n + "." + nonce && '.' !in n && '.' !in nonce
    ensures ParseInt(n) == Some(e) && now < e * SECOND <= now + s.ttl + SECOND
  {
    var parts := Split(payload);
    n, nonce := parts[1], parts[2];
    assert parts == ["v1", n, nonce];
    SplitThree(payload, "v1", n, nonce);
    assert "v1." == "v1" + ".";
  }

  lemma PartsVerify(s: Signer, token: string, now: int, e: int, n: string, nonce: string, signature: string)
    requires Spells(token, n, nonce, signature) && Authentic(s, n, nonce, signature, e, now)
    ensures Verify(s, token, now) == Valid(e)
  {
    var payload := "v1." + n + "." + nonce;
    assert payload == "v1" + "." + n + "." + nonce;
    assert token == payload + "." + signature;
    LastDotOf(payload, signature);
    SplitThree(payload, "v1", n, nonce);
  }

  /** A well-formed token is told to have a wrong signature exactly when the text
      after its last dot decodes to something else than the MAC of what is before. */
  lemma WrongSignatureExactly(s: Signer, payload: string, signature: string, now: int)
    requires '.' !in signature
    ensures Verify(s, payload + "." + signature, now) == InvalidSignature <==>
              s.decode(signature).Some? && s.decode(signature).value != s.sign(payload)
  {
    LastDotOf(payload, signature);
  }

  /** Moving a signature to another payload is rejected unless the MACs collide. */
  lemma TamperingRejected(s: Signer, payload: string, other: string, signature: string, now: int, later: int)
    requires '.' !in signature
    requires Verify(s, payload + "." + signature, now).Valid? && Verify(s, other + "." + signature, later).Valid?
    ensures s.sign(payload) == s.sign(other)
  {
    LastDotOf(payload, signature);
    LastDotOf(other, signature);
  }
}
