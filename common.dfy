/** Small shared vocabulary: optional values, results, and the string helpers
    that the JavaScript and Python sources use implicitly (lowercasing, `in` /
    `includes`, `trim`, `split` with a regular expression of alternatives, `join`). */
module Common {

  datatype Option<T> = None | Some(value: T)

  datatype Result<T, E> = Ok(value: T) | Err(error: E)

  /** JavaScript / Python truthiness of an optional string: present and non-empty. */
  predicate Truthy(s: Option<string>) {
    s.Some? && s.value != ""
  }

  /** `x || fallback` for an optional string. */
  function OrElse(s: Option<string>, fallback: string): (r: string)
    ensures Truthy(s) ==> r == s.value
    ensures !Truthy(s) ==> r == fallback
  {
    if Truthy(s) then s.value else fallback
  }

  /** `s || null` (or `s || undefined`) for an optional string. */
  function Present(s: Option<string>): (r: Option<string>)
    ensures r.Some? <==> Truthy(s)
    ensures r.Some? ==> r == s
  {
    if Truthy(s) then s else None
  }

  /** `s || undefined` for a string that is always defined. */
  function NonEmpty(s: string): (r: Option<string>)
    ensures r.None? <==> s == ""
    ensures r.Some? ==> r.value == s
  {
    if s == "" then None else Some(s)
  }

  // ---------------------------------------------------------------------------
  // Characters and case

  predicate IsUpper(c: char) { 'A' <= c <= 'Z' }

  /** ASCII lowercasing of one character. */
  function LowerChar(c: char): char {
    if IsUpper(c) then (c as int + 32) as char else c
  }

  /** `toLowerCase()` / `lower()` restricted to ASCII letters. */
  function Lower(s: string): (r: string)
    ensures |r| == |s|
    ensures forall i :: 0 <= i < |s| ==> r[i] == LowerChar(s[i])
  {
    if s == [] then [] else [LowerChar(s[0])] + Lower(s[1..])
  }

  lemma {:induction false} LowerIdempotent(s: string)
    ensures Lower(Lower(s)) == Lower(s)
  {
    if s != [] {
      LowerIdempotent(s[1..]);
      assert Lower(s)[1..] == Lower(s[1..]);
    }
  }

  predicate IsAlnum(c: char) {
    'a' <= c <= 'z' || 'A' <= c <= 'Z' || '0' <= c <= '9'
  }

  /** The class `[a-zA-Z0-9_-]`. */
  predicate IsIdentChar(c: char) {
    IsAlnum(c) || c == '_' || c == '-'
  }

  /** The whitespace stripped by `trim()` and matched by `\s`, restricted to ASCII. */
  predicate IsSpace(c: char) {
    c == ' ' || (9 <= c as int <= 13)
  }

  // ---------------------------------------------------------------------------
  // Substrings

  predicate OccursAt(s: string, p: string, i: int) {
    0 <= i && i + |p| <= |s| && s[i..i + |p|] == p
  }

  /** `p in s` (Python) / `s.includes(p)` (JavaScript). */
  predicate Contains(s: string, p: string) {
    exists i | 0 <= i <= |s| - |p| :: OccursAt(s, p, i)
  }

  /** `keywords.some((k) => s.includes(k))`. */
  predicate ContainsAny(s: string, keywords: seq<string>) {
    exists k | k in keywords :: Contains(s, k)
  }

  lemma ContainsInInfix(s: string, t: string, p: string)
    requires Contains(s, t) && Contains(t, p)
    ensures Contains(s, p)
  {
    var i :| 0 <= i <= |s| - |t| && OccursAt(s, t, i);
    var j :| 0 <= j <= |t| - |p| && OccursAt(t, p, j);
    assert t == s[i..i + |t|];
    forall k | 0 <= k < |p|
      ensures s[i + j + k] == p[k]
    {
      assert p[k] == t[j + k];
    }
    assert s[i + j..i + j + |p|] == p;
    assert OccursAt(s, p, i + j);
  }

  lemma EmptyContainsNothing(p: string)
    requires p != ""
    ensures !Contains("", p)
  {
  }

  /** A text lacking one of the characters of `p` does not contain `p`. */
  lemma MissingCharNotContained(s: string, p: string, c: char)
    requires c in p && c !in s
    ensures !Contains(s, p)
  {
    forall i | 0 <= i <= |s| - |p| ensures !OccursAt(s, p, i) {
      var w := s[i..i + |p|];
      assert forall j | 0 <= j < |w| :: w[j] == s[i + j];
      assert c !in w;
    }
  }

  lemma EmptyContainsNoKeyword(keywords: seq<string>)
    requires AllNonEmpty(keywords)
    ensures !ContainsAny("", keywords)
  {
    forall k | k in keywords ensures !Contains("", k) {
      EmptyContainsNothing(k);
    }
  }

  // ---------------------------------------------------------------------------
  // trim

  function TrimStart(s: string): (r: string)
    ensures |r| <= |s| && r == s[|s| - |r|..]
    ensures r == "" || !IsSpace(r[0])
  {
    if |s| > 0 && IsSpace(s[0]) then TrimStart(s[1..]) else s
  }

  function TrimEnd(s: string): (r: string)
    ensures |r| <= |s| && r == s[..|r|]
    ensures r == "" || !IsSpace(r[|r| - 1])
  {
    if |s| > 0 && IsSpace(s[|s| - 1]) then TrimEnd(s[..|s| - 1]) else s
  }

  /** `trim()`: a contiguous part of the input with no surrounding whitespace. */
  function Trim(s: string): (r: string)
    ensures Contains(s, r)
    ensures r == "" || (!IsSpace(r[0]) && !IsSpace(r[|r| - 1]))
  {
    var a := TrimStart(s);
    var r := TrimEnd(a);
    assert OccursAt(s, r, |s| - |a|);
    r
  }

  /** Concatenation is associative. */
  lemma ConcatAssoc<T>(a: seq<T>, b: seq<T>, c: seq<T>)
    ensures (a + b) + c == a + (b + c)
  {
  }

  // ---------------------------------------------------------------------------
  // join

  /** `parts.join(sep)`. */
  function Join(parts: seq<string>, sep: string): string {
    if parts == [] then ""
    else if |parts| == 1 then parts[0]
    else parts[0] + sep + Join(parts[1..], sep)
  }

  // ---------------------------------------------------------------------------
  // Leftmost match of a regular expression made of literal alternatives
  // `(?:a|b|c)` with the case-insensitive flag: the text is matched in its
  // lowercased form and the alternatives are written in lower case.

  predicate AllNonEmpty(alts: seq<string>) {
    forall a | a in alts :: a != ""
  }

  /** The length of the first alternative, in order, that occurs at position `i`. */
  function AltAt(s: string, alts: seq<string>, i: int): (r: Option<nat>)
    ensures r.None? <==> forall a | a in alts :: !OccursAt(s, a, i)
    ensures r.Some? ==> exists a | a in alts :: OccursAt(s, a, i) && |a| == r.value
  {
    if alts == [] then None
    else if OccursAt(s, alts[0], i) then Some(|alts[0]|)
    else AltAt(s, alts[1..], i)
  }

  predicate NoMatchIn(s: string, alts: seq<string>, from: int, to: int) {
    forall p, a | from <= p < to && a in alts :: !OccursAt(s, a, p)
  }

  /** The leftmost match at or after `from`, as (start, end). */
  function Leftmost(s: string, alts: seq<string>, from: nat): (r: Option<(nat, nat)>)
    requires AllNonEmpty(alts)
    decreases |s| - from
    ensures r.None? ==> NoMatchIn(s, alts, from, |s| + 1)
    ensures r.Some? ==> from <= r.value.0 < r.value.1 <= |s|
    ensures r.Some? ==> NoMatchIn(s, alts, from, r.value.0)
    ensures r.Some? ==> exists a | a in alts :: OccursAt(s, a, r.value.0) && r.value.1 == r.value.0 + |a|
  {
    if from > |s| then None
    else match AltAt(s, alts, from)
      case Some(n) => Some((from, from + n))
      case None =>
        var r := Leftmost(s, alts, from + 1);
        NoMatchExtend(s, alts, from, if r.None? then |s| + 1 else r.value.0);
        r
  }

  lemma NoMatchExtend(s: string, alts: seq<string>, from: int, to: int)
    requires forall a | a in alts :: !OccursAt(s, a, from)
    requires NoMatchIn(s, alts, from + 1, to)
    ensures NoMatchIn(s, alts, from, to)
  {
  }

  /** `s.split(/(?:alt1|alt2|...)/i)`: the pieces between successive leftmost matches,
      found in the lowercased text `low` and cut out of the original `s`. */
  function SplitFrom(s: string, low: string, alts: seq<string>, start: nat): (r: seq<string>)
    requires |low| == |s| && start <= |s| && AllNonEmpty(alts)
    decreases |s| - start
    ensures |r| >= 1
  {
    match Leftmost(low, alts, start)
    case None => [s[start..]]
    case Some((b, e)) => [s[start..b]] + SplitFrom(s, low, alts, e)
  }

  function Split(s: string, alts: seq<string>): (r: seq<string>)
    requires AllNonEmpty(alts)
    ensures |r| >= 1
  {
    SplitFrom(s, Lower(s), alts, 0)
  }

  /** `split(...)[k]`, undefined past the end. */
  function Piece(s: string, alts: seq<string>, k: nat): Option<string>
    requires AllNonEmpty(alts)
  {
    var ps := Split(s, alts);
    if k < |ps| then Some(ps[k]) else None
  }

  /** The first piece is the text before the leftmost match: no alternative occurs in it. */
  lemma FirstPieceHasNoMatch(s: string, alts: seq<string>)
    requires AllNonEmpty(alts)
    ensures var p := Split(s, alts)[0];
      |p| <= |s| && p == s[..|p|] && NoMatchIn(Lower(s)[..|p|], alts, 0, |p| + 1)
  {
    var low := Lower(s);
    var p := Split(s, alts)[0];
    match Leftmost(low, alts, 0)
    case None =>
      assert p == s;
      assert low[..|p|] == low;
    case Some((b, e)) =>
      assert p == s[..b];
      forall q, a | 0 <= q < |p| + 1 && a in alts
        ensures !OccursAt(low[..b], a, q)
      {
        if OccursAt(low[..b], a, q) {
          assert low[..b][q..q + |a|] == low[q..q + |a|];
          assert OccursAt(low, a, q);
        }
      }
  }

  /** The second piece exists exactly when some alternative occurs in the text. */
  lemma SecondPieceIffMatch(s: string, alts: seq<string>)
    requires AllNonEmpty(alts)
    ensures |Split(s, alts)| >= 2 <==> Leftmost(Lower(s), alts, 0).Some?
    ensures Piece(s, alts, 1).Some? <==> Leftmost(Lower(s), alts, 0).Some?
  {
  }

  // ---------------------------------------------------------------------------
  // Facts about lowercasing, infixes and the first piece of a split

  lemma LowerOfPrefix(s: string, k: nat)
    requires k <= |s|
    ensures Lower(s[..k]) == Lower(s)[..k]
  {
  }

  lemma LowerInfix(r: string, s: string)
    requires Contains(s, r)
    ensures Contains(Lower(s), Lower(r))
  {
    var i :| 0 <= i <= |s| - |r| && OccursAt(s, r, i);
    var ls, lr := Lower(s), Lower(r);
    forall k | 0 <= k < |r| ensures ls[i..i + |r|][k] == lr[k] {
      assert ls[i + k] == LowerChar(s[i + k]);
      assert s[i + k] == s[i..i + |r|][k] == r[k];
    }
    assert ls[i..i + |r|] == lr;
    assert OccursAt(ls, lr, i);
  }

  /** `s.includes(p + q)` implies `s.includes(p)`. */
  lemma ContainsPrefixOf(s: string, p: string, q: string)
    requires Contains(s, p + q)
    ensures Contains(s, p)
  {
    var i :| 0 <= i <= |s| - |p + q| && OccursAt(s, p + q, i);
    assert s[i..i + |p|] == (p + q)[..|p|];
    assert OccursAt(s, p, i);
  }

  /** No alternative occurs, in any case, in the first piece of a split. */
  lemma FirstPieceClean(s: string, alts: seq<string>)
    requires AllNonEmpty(alts)
    ensures !ContainsAny(Lower(Split(s, alts)[0]), alts)
  {
    var p := Split(s, alts)[0];
    FirstPieceHasNoMatch(s, alts);
    LowerOfPrefix(s, |p|);
    assert Lower(p) == Lower(s)[..|p|];
    forall a | a in alts ensures !Contains(Lower(p), a) {
      forall q | 0 <= q <= |Lower(p)| - |a| ensures !OccursAt(Lower(p), a, q) {
        assert 0 <= q < |p| + 1;
      }
    }
  }

  /** Trimming cannot make an alternative appear. */
  lemma TrimClean(s: string, alts: seq<string>)
    requires !ContainsAny(Lower(s), alts)
    ensures !ContainsAny(Lower(Trim(s)), alts)
  {
    LowerInfix(Trim(s), s);
    forall a | a in alts ensures !Contains(Lower(Trim(s)), a) {
      if Contains(Lower(Trim(s)), a) {
        ContainsInInfix(Lower(s), Lower(Trim(s)), a);
      }
    }
  }

  // ---------------------------------------------------------------------------
  // Decimal rendering of naturals (`String(n)`)

  function DigitChar(d: nat): char
    requires d < 10
  {
    ('0' as int + d) as char
  }

  function NatToString(n: nat): (r: string)
    ensures |r| >= 1
    ensures forall k | 0 <= k < |r| :: '0' <= r[k] <= '9'
  {
    if n < 10 then [DigitChar(n)] else NatToString(n / 10) + [DigitChar(n % 10)]
  }

  function DigitValue(c: char): nat
    requires '0' <= c <= '9'
  {
    (c as int) - ('0' as int)
  }

  function ParseDigits(s: string): nat
    requires forall k | 0 <= k < |s| :: '0' <= s[k] <= '9'
  {
    if s == [] then 0 else ParseDigits(s[..|s| - 1]) * 10 + DigitValue(s[|s| - 1])
  }

  /** Reading the digits back gives the number: the rendering loses nothing. */
  lemma {:induction false} NatToStringRoundTrip(n: nat)
    ensures ParseDigits(NatToString(n)) == n
  {
    if n >= 10 {
      NatToStringRoundTrip(n / 10);
      var r := NatToString(n);
      assert r[..|r| - 1] == NatToString(n / 10);
    }
  }

  /** Distinct numbers render differently (array indices make distinct keys). */
  lemma NatToStringInjective(a: nat, b: nat)
    requires a != b
    ensures NatToString(a) != NatToString(b)
  {
    NatToStringRoundTrip(a);
    NatToStringRoundTrip(b);
  }
}
