/** The string operations the topology code relies on, over ASCII text. */
module Text {
  function LowerChar(c: char): char {
    if 'A' <= c <= 'Z' then c - 'A' + 'a' else c
  }

  function Lower(s: string): string {
    seq(|s|, i requires 0 <= i < |s| => LowerChar(s[i]))
  }

  predicate EqualFold(a: string, b: string) {
    Lower(a) == Lower(b)
  }

  predicate Contains(s: string, part: string) {
    part <= s || (s != "" && Contains(s[1..], part))
  }

  predicate IsSpace(c: char) {
    c == ' ' || c == '\t' || c == '\n' || c == '\r'
  }

  function TrimSpace(s: string): string {
    if s == "" then ""
    else if IsSpace(s[0]) then TrimSpace(s[1..])
    else if IsSpace(s[|s| - 1]) then TrimSpace(s[..|s| - 1])
    else s
  }

  function SafeIDChar(c: char): char {
    if c == '/' || c == ':' || c == '.' || c == '_' || c == ' ' then '-' else LowerChar(c)
  }

  function SafeID(s: string): string {
    seq(|s|, i requires 0 <= i < |s| => SafeIDChar(s[i]))
  }

  lemma SafeIDEmpty(s: string)
    ensures SafeID(s) == "" <==> s == ""
  {
    assert |SafeID(s)| == |s|;
  }

  function Digits(n: nat): string {
    (if n < 10 then "" else Digits(n / 10)) + [(n % 10) as char + '0']
  }

  /** strconv.Itoa */
  function Decimal(n: int): string {
    if n < 0 then "-" + Digits(-n) else Digits(n)
  }

  function Join(parts: seq<string>, separator: string): string {
    if parts == [] then ""
    else if |parts| == 1 then parts[0]
    else parts[0] + separator + Join(parts[1..], separator)
  }

  // ---- what they mean ----

  /** The same letter, in one case or the other. */
  predicate SameLetter(a: char, b: char) {
    || a == b
    || ('A' <= a <= 'Z' && 'a' <= b <= 'z' && a - 'A' == b - 'a')
    || ('a' <= a <= 'z' && 'A' <= b <= 'Z' && a - 'a' == b - 'A')
  }

  lemma FoldExactly(a: string, b: string)
    ensures EqualFold(a, b) <==> |a| == |b| && forall k :: 0 <= k < |a| ==> SameLetter(a[k], b[k])
  {
    assert |Lower(a)| == |a| && |Lower(b)| == |b|;
    assert forall k :: 0 <= k < |a| ==> Lower(a)[k] == LowerChar(a[k]);
    assert forall k :: 0 <= k < |b| ==> Lower(b)[k] == LowerChar(b[k]);
  }

  predicate Separator(c: char) { c == '/' || c == ':' || c == '.' || c == '_' || c == ' ' || c == '-' }

  /** Two texts give the same ID text exactly when they differ only in the case of
      letters and in which separators they use. */
  lemma SafeIDExactly(a: string, b: string)
    ensures SafeID(a) == SafeID(b) <==>
              |a| == |b| && forall k :: 0 <= k < |a| ==> SameLetter(a[k], b[k]) || (Separator(a[k]) && Separator(b[k]))
  {
    assert |SafeID(a)| == |a| && |SafeID(b)| == |b|;
    assert forall k :: 0 <= k < |a| ==> SafeID(a)[k] == SafeIDChar(a[k]);
    assert forall k :: 0 <= k < |b| ==> SafeID(b)[k] == SafeIDChar(b[k]);
  }

  /** Addresses of digits and dots never share an ID text. */
  lemma AddressesApart(a: string, b: string)
    requires forall c :: c in a || c in b ==> c == '.' || '0' <= c <= '9'
    requires SafeID(a) == SafeID(b)
    ensures a == b
  {
    SafeIDExactly(a, b);
    forall k | 0 <= k < |a| ensures a[k] == b[k] {
      assert a[k] in a && b[k] in b;
    }
  }

  predicate OccursAt(s: string, part: string, i: nat) {
    i + |part| <= |s| && s[i..i + |part|] == part
  }

  /** The part occurs somewhere. */
  lemma {:induction false} ContainsExactly(s: string, part: string)
    ensures Contains(s, part) <==> exists i: nat :: OccursAt(s, part, i)
  {
    if part <= s {
      assert OccursAt(s, part, 0);
    } else if s != "" {
      var tail := s[1..];
      ContainsExactly(tail, part);
      if i: nat :| OccursAt(tail, part, i) {
        assert OccursAt(s, part, i + 1);
      }
      if i: nat :| OccursAt(s, part, i) {
        assert i > 0;
        assert OccursAt(tail, part, i - 1);
      }
    }
  }

  predicate AllSpace(s: string) { forall c :: c in s ==> IsSpace(c) }

  /** Trimming takes the space off both ends and nothing else. */
  lemma {:induction false} TrimExactly(s: string) returns (before: string, after: string)
    ensures s == before + TrimSpace(s) + after && AllSpace(before) && AllSpace(after)
    ensures var t := TrimSpace(s); t != "" ==> !IsSpace(t[0]) && !IsSpace(t[|t| - 1])
  {
    before, after := "", "";
    if s != "" && IsSpace(s[0]) {
      before, after := TrimExactly(s[1..]);
      assert s == [s[0]] + s[1..];
      before := [s[0]] + before;
    } else if s != "" && IsSpace(s[|s| - 1]) {
      before, after := TrimExactly(s[..|s| - 1]);
      assert s == s[..|s| - 1] + [s[|s| - 1]];
      after := after + [s[|s| - 1]];
    }
  }

  predicate DigitChar(c: char) { '0' <= c <= '9' }

  lemma {:induction false} DigitsAreDigits(n: nat)
    ensures Digits(n) != "" && forall c :: c in Digits(n) ==> DigitChar(c)
  {
    if n >= 10 {
      DigitsAreDigits(n / 10);
    }
  }

  lemma {:induction false} DigitsInjective(a: nat, b: nat)
    requires Digits(a) == Digits(b)
    ensures a == b
  {
    var s, t := Digits(a), Digits(b);
    assert s[|s| - 1] == (a % 10) as char + '0' && t[|t| - 1] == (b % 10) as char + '0';
    assert s[..|s| - 1] == (if a < 10 then "" else Digits(a / 10));
    assert t[..|t| - 1] == (if b < 10 then "" else Digits(b / 10));
    if a >= 10 {
      DigitsAreDigits(a / 10);
    }
    if b >= 10 {
      DigitsAreDigits(b / 10);
    }
    if a >= 10 {
      DigitsInjective(a / 10, b / 10);
    }
  }

  lemma DecimalNotEmpty(n: int)
    ensures Decimal(n) != ""
  {
  }

  /** Different numbers print differently. */
  lemma DecimalInjective(a: int, b: int)
    requires Decimal(a) == Decimal(b)
    ensures a == b
  {
    var s := Digits(if a < 0 then -a else a);
    var t := Digits(if b < 0 then -b else b);
    DigitsAreDigits(if a < 0 then -a else a);
    DigitsAreDigits(if b < 0 then -b else b);
    assert s[0] in s && t[0] in t;
    assert a < 0 ==> Decimal(a)[0] == '-' && Decimal(a)[1..] == s;
    assert b < 0 ==> Decimal(b)[0] == '-' && Decimal(b)[1..] == t;
    DigitsInjective(if a < 0 then -a else a, if b < 0 then -b else b);
  }

  /** Joining two lists joins their joins. */
  lemma {:induction false} JoinConcat(a: seq<string>, b: seq<string>, separator: string)
    requires a != [] && b != []
    ensures Join(a + b, separator) == Join(a, separator) + separator + Join(b, separator)
  {
    assert (a + b)[1..] == a[1..] + b;
    if |a| > 1 {
      JoinConcat(a[1..], b, separator);
    }
  }
}
