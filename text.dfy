/**
 * The string operations the storefront relies on, over an ASCII model of
 * characters: toLowerCase, includes, startsWith, trim, decimal rendering of a
 * timestamp, and ordered keyword rules (the shape shared by product
 * categorisation and the ice-cream colour lookup).
 */
module Text {
  import opened Prelude

  /** Whitespace as trim() and the regex class \s see it (ASCII part). */
  predicate IsSpace(c: char) {
    c == ' ' || c == '\t' || c == '\n' || c == '\r' || c == '\U{B}' || c == '\U{C}'
  }

  predicate IsUpper(c: char) { 'A' <= c <= 'Z' }

  predicate IsLetter(c: char) { 'a' <= c <= 'z' || 'A' <= c <= 'Z' }

  predicate IsDigit(c: char) { '0' <= c <= '9' }

  /** toLowerCase on one character. */
  function Lower(c: char): char {
    if IsUpper(c) then (c as int + 32) as char else c
  }

  /** toLowerCase on a string. */
  function LowerStr(s: string): string {
    seq(|s|, i requires 0 <= i < |s| => Lower(s[i]))
  }

  lemma LowerStrIdempotent(s: string)
    ensures LowerStr(LowerStr(s)) == LowerStr(s)
  {
  }

  /** t occurs in s starting at index i. */
  predicate MatchAt(s: string, t: string, i: int) {
    0 <= i && i + |t| <= |s| && s[i..i + |t|] == t
  }

  /** String.prototype.includes. */
  predicate Contains(s: string, t: string) {
    exists i :: 0 <= i <= |s| - |t| && MatchAt(s, t, i)
  }

  /** If some character of t never occurs in s, then s does not include t. */
  lemma {:induction false} AbsentChar(s: string, t: string, k: nat)
    requires k < |t| && t[k] !in s
    ensures !Contains(s, t)
  {
  }

  /** If two adjacent characters of t never occur side by side in s, then s does not include t. */
  lemma {:induction false} AbsentPair(s: string, t: string, k: nat)
    requires k + 1 < |t|
    requires forall i :: 0 <= i < |s| - 1 ==> !(s[i] == t[k] && s[i + 1] == t[k + 1])
    ensures !Contains(s, t)
  {
    forall i | 0 <= i <= |s| - |t| ensures !MatchAt(s, t, i) {
      if s[i..i + |t|] == t {
        EqualAt(s[i..i + |t|], t, k);
      }
    }
  }

  lemma EqualAt(u: string, t: string, k: nat)
    requires u == t && k + 1 < |t|
    ensures u[k] == t[k] && u[k + 1] == t[k + 1]
  {
  }

  /** String.prototype.startsWith. */
  predicate StartsWith(s: string, prefix: string) {
    |prefix| <= |s| && s[..|prefix|] == prefix
  }

  /** The leading-whitespace half of trim(): drops whitespace from the front. */
  function TrimStart(s: string): (r: string)
    ensures |r| <= |s| && r == s[|s| - |r|..]
    ensures forall i :: 0 <= i < |s| - |r| ==> IsSpace(s[i])
    ensures r == [] || !IsSpace(r[0])
  {
    if |s| > 0 && IsSpace(s[0]) then TrimStart(s[1..]) else s
  }

  /** The trailing-whitespace half of trim(): drops whitespace from the back. */
  function TrimEnd(s: string): (r: string)
    ensures |r| <= |s| && r == s[..|r|]
    ensures forall i :: |r| <= i < |s| ==> IsSpace(s[i])
    ensures r == [] || !IsSpace(r[|r| - 1])
  {
    if |s| > 0 && IsSpace(s[|s| - 1]) then TrimEnd(s[..|s| - 1]) else s
  }

  /** String.prototype.trim. */
  function Trim(s: string): string {
    TrimEnd(TrimStart(s))
  }

  /** A string with no whitespace at either end. */
  predicate IsTrimmed(s: string) {
    s == [] || (!IsSpace(s[0]) && !IsSpace(s[|s| - 1]))
  }

  /**
   * trim() removes exactly the whitespace at both ends: its result has none left
   * there, is a contiguous piece of the input, and every character dropped is
   * whitespace.
   */
  lemma TrimSpec(s: string)
    ensures IsTrimmed(Trim(s))
    ensures Sublist(Trim(s), s)
    ensures |Trim(s)| <= |s|
    ensures forall c :: c in Trim(s) ==> c in s
  {
    var m := TrimStart(s);
    var r := TrimEnd(m);
    TrimEndTrimmed(m);
    assert Sublist(m, s) by { SuffixSublist(s, |s| - |m|); }
    assert Sublist(r, m) by { PrefixSublist(m, |r|); }
    SublistTrans(r, m, s);
    SublistElements(r, s);
  }

  /** Trimming the end of a string whose front is already trimmed leaves both ends trimmed. */
  lemma TrimEndTrimmed(m: string)
    requires m == [] || !IsSpace(m[0])
    ensures IsTrimmed(TrimEnd(m))
  {
    var r := TrimEnd(m);
    if r != [] {
      assert r[0] == m[0];
    }
  }

  /** trim() leaves an already trimmed string alone, so trimming twice is trimming once. */
  lemma TrimFixesTrimmed(s: string)
    requires IsTrimmed(s)
    ensures Trim(s) == s
  {
  }

  lemma TrimIdempotent(s: string)
    ensures Trim(Trim(s)) == Trim(s)
  {
    TrimSpec(s);
    TrimFixesTrimmed(Trim(s));
  }

  // ---- decimal digits (the millisecond timestamp in a bill number) ----

  function DigitChar(d: nat): char
    requires d < 10
  {
    ('0' as int + d) as char
  }

  /** The decimal rendering of a natural number, as String(n) gives it. */
  function Decimal(n: nat): (s: string)
    ensures |s| >= 1
    ensures forall i :: 0 <= i < |s| ==> IsDigit(s[i])
    ensures n > 0 ==> s[0] != '0'
  {
    if n < 10 then [DigitChar(n)] else Decimal(n / 10) + [DigitChar(n % 10)]
  }

  /** Reads a string of decimal digits back as a number. */
  function ParseDecimal(s: string): nat
    requires forall i :: 0 <= i < |s| ==> IsDigit(s[i])
  {
    if s == [] then 0
    else
      assert IsDigit(s[|s| - 1]);
      10 * ParseDecimal(Init(s)) + (Last(s) as int - '0' as int)
  }

  lemma {:induction false} DecimalRoundTrip(n: nat)
    ensures ParseDecimal(Decimal(n)) == n
  {
    if n >= 10 {
      DecimalRoundTrip(n / 10);
      assert Init(Decimal(n)) == Decimal(n / 10);
    }
  }

  // ---- ordered keyword rules ----

  /**
   * A keyword rule fires on a (lower-cased) name when, for at least one of its
   * alternatives, the name includes every keyword of that alternative; so
   * [["bulk"], ["big", "cup"]] reads  bulk || (big && cup).
   */
  datatype Rule<T> = Rule(alternatives: seq<seq<string>>, outcome: T)

  predicate AllPresent(name: string, keywords: seq<string>) {
    forall k :: k in keywords ==> Contains(name, k)
  }

  predicate Fires<T>(r: Rule<T>, name: string) {
    exists alt :: alt in r.alternatives && AllPresent(name, alt)
  }

  /** The outcome of the first rule that fires, or the fallback when none does. */
  function FirstMatch<T>(rules: seq<Rule<T>>, name: string, fallback: T): T {
    if rules == [] then fallback
    else if Fires(rules[0], name) then rules[0].outcome
    else FirstMatch(rules[1..], name, fallback)
  }

  /** Rules are tried in order and the first one that fires decides. */
  lemma {:induction false} FirstMatchWins<T>(rules: seq<Rule<T>>, name: string, fallback: T, i: nat)
    requires i < |rules| && Fires(rules[i], name)
    requires forall j :: 0 <= j < i ==> !Fires(rules[j], name)
    ensures FirstMatch(rules, name, fallback) == rules[i].outcome
  {
    if i > 0 {
      FirstMatchWins(rules[1..], name, fallback, i - 1);
    }
  }

  /** When no rule fires the fallback is the answer. */
  lemma {:induction false} FirstMatchFallback<T>(rules: seq<Rule<T>>, name: string, fallback: T)
    requires forall j :: 0 <= j < |rules| ==> !Fires(rules[j], name)
    ensures FirstMatch(rules, name, fallback) == fallback
  {
    if rules != [] {
      FirstMatchFallback(rules[1..], name, fallback);
    }
  }

  /** The answer is always the fallback or the outcome of some rule that fires. */
  lemma {:induction false} FirstMatchSource<T>(rules: seq<Rule<T>>, name: string, fallback: T)
    ensures FirstMatch(rules, name, fallback) == fallback
         || exists i :: 0 <= i < |rules| && Fires(rules[i], name)
                        && FirstMatch(rules, name, fallback) == rules[i].outcome
  {
    if rules != [] && !Fires(rules[0], name) {
      FirstMatchSource(rules[1..], name, fallback);
      var r := FirstMatch(rules[1..], name, fallback);
      if r != fallback {
        var i :| 0 <= i < |rules[1..]| && Fires(rules[1..][i], name) && r == rules[1..][i].outcome;
        assert rules[i + 1] == rules[1..][i];
      }
    }
  }
}
