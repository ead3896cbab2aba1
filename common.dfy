/**
 * Shared vocabulary of the model: optional values, results carrying an HTTP
 * error, and the few text renderings that the source produces with Python
 * f-strings (decimal numbers, thousands separators, ASCII case folding).
 */
module Common {

  datatype Option<T> = None | Some(value: T)

  datatype Result<T, E> = Ok(value: T) | Err(error: E)

  /** What FastAPI's HTTPException carries back to the client. */
  datatype HttpError = HttpError(status: int, detail: string)

  // ---------------------------------------------------------------------------
  // Decimal rendering, as Python's str(n) and f"{n}" print a natural number
  // ---------------------------------------------------------------------------

  predicate IsDigit(c: char) {
    '0' <= c <= '9'
  }

  function DigitChar(d: nat): (c: char)
    requires d < 10
    ensures IsDigit(c) && c as int - '0' as int == d
  {
    "0123456789"[d]
  }

  function DigitValue(c: char): nat
    requires IsDigit(c)
  {
    c as int - '0' as int
  }

  /** Python's str(n) for n >= 0: most significant digit first, no leading zeros. */
  function NatToString(n: nat): (s: string)
    ensures 1 <= |s|
    ensures forall i | 0 <= i < |s| :: IsDigit(s[i])
    ensures |s| > 1 ==> s[0] != '0'
    decreases n
  {
    if n < 10 then [DigitChar(n)] else NatToString(n / 10) + [DigitChar(n % 10)]
  }

  /** Reads back a string of digits; the inverse of NatToString. */
  function ParseDigits(s: string): nat
    requires forall i | 0 <= i < |s| :: IsDigit(s[i])
  {
    if s == [] then 0 else ParseDigits(s[..|s| - 1]) * 10 + DigitValue(s[|s| - 1])
  }

  lemma {:induction false} ParseNatToString(n: nat)
    ensures ParseDigits(NatToString(n)) == n
    decreases n
  {
    var s := NatToString(n);
    if n >= 10 {
      ParseNatToString(n / 10);
      assert s[..|s| - 1] == NatToString(n / 10);
    }
  }

  /** Python's str(i) for any integer. */
  function IntToString(i: int): string {
    if i < 0 then "-" + NatToString(-i) else NatToString(i)
  }

  /** Python's f"{n:,}": decimal digits with a comma between groups of three. */
  function Grouped(n: nat): (s: string)
    ensures 1 <= |s|
  {
    GroupDigits(NatToString(n))
  }

  /** Puts a comma before every group of three digits counted from the right, except at the front. */
  function GroupDigits(s: string): (r: string)
    ensures |s| <= |r|
    decreases |s|
  {
    if |s| <= 3 then s else GroupDigits(s[..|s| - 3]) + "," + s[|s| - 3..]
  }

  /** s with every ',' removed. */
  function NoCommas(s: string): (r: string)
    ensures |r| <= |s|
  {
    if s == [] then [] else NoCommas(s[..|s| - 1]) + (if s[|s| - 1] == ',' then [] else [s[|s| - 1]])
  }

  lemma {:induction false} NoCommasAppend(a: string, b: string)
    ensures NoCommas(a + b) == NoCommas(a) + NoCommas(b)
    decreases |b|
  {
    if b == [] {
      assert a + b == a;
    } else {
      var c := a + b;
      assert c[..|c| - 1] == a + b[..|b| - 1];
      NoCommasAppend(a, b[..|b| - 1]);
    }
  }

  lemma {:induction false} NoCommasOfDigits(s: string)
    requires forall i | 0 <= i < |s| :: IsDigit(s[i])
    ensures NoCommas(s) == s
    decreases |s|
  {
    if s != [] {
      NoCommasOfDigits(s[..|s| - 1]);
    }
  }

  /** Removing the separators from f"{n:,}" gives str(n): the grouping changes no digit. */
  lemma GroupedDigits(n: nat)
    ensures NoCommas(Grouped(n)) == NatToString(n)
  {
    GroupDigitsNoCommas(NatToString(n));
  }

  lemma {:induction false} GroupDigitsNoCommas(s: string)
    requires forall i | 0 <= i < |s| :: IsDigit(s[i])
    ensures NoCommas(GroupDigits(s)) == s
    decreases |s|
  {
    if |s| <= 3 {
      NoCommasOfDigits(s);
    } else {
      var hi, lo := s[..|s| - 3], s[|s| - 3..];
      GroupDigitsNoCommas(hi);
      NoCommasJoin(GroupDigits(hi), lo);
      assert hi + lo == s;
    }
  }

  lemma {:induction false} NoCommasJoin(g: string, p: string)
    requires forall i | 0 <= i < |p| :: IsDigit(p[i])
    ensures NoCommas(g + "," + p) == NoCommas(g) + p
  {
    NoCommasAppend(g + ",", p);
    NoCommasAppend(g, ",");
    assert NoCommas(",") == [] by {
      assert ","[..0] == [];
    }
    NoCommasOfDigits(p);
  }

  // ---------------------------------------------------------------------------
  // Strings
  // ---------------------------------------------------------------------------

  predicate IsAsciiUpper(c: char) {
    'A' <= c <= 'Z'
  }

  /** str.lower() restricted to ASCII letters. */
  function LowerChar(c: char): (r: char)
    ensures !IsAsciiUpper(r)
    ensures !IsAsciiUpper(c) ==> r == c
  {
    if IsAsciiUpper(c) then (c as int - 'A' as int + 'a' as int) as char else c
  }

  function Lower(s: string): (r: string)
    ensures |r| == |s|
    ensures forall i | 0 <= i < |s| :: r[i] == LowerChar(s[i])
  {
    seq(|s|, i requires 0 <= i < |s| => LowerChar(s[i]))
  }

  /** t occurs in s starting at position i. */
  ghost predicate OccursAt(s: string, t: string, i: int) {
    0 <= i <= |s| - |t| && s[i..i + |t|] == t
  }

  /** t occurs in s as a contiguous piece. */
  ghost predicate Contains(s: string, t: string) {
    exists i :: OccursAt(s, t, i)
  }

  lemma ContainsMiddle(a: string, b: string, c: string)
    ensures Contains(a + b + c, b)
  {
    var s := a + b + c;
    assert s[|a|..|a| + |b|] == b;
    assert OccursAt(s, b, |a|);
  }

  // ---------------------------------------------------------------------------
  // Sequences
  // ---------------------------------------------------------------------------

  /** Python's s[:k], including a negative k that counts from the end. */
  function PyPrefix<T>(s: seq<T>, k: int): (r: seq<T>)
    ensures k >= 0 ==> |r| == if k < |s| then k else |s|
    ensures k < 0 ==> |r| == if |s| + k > 0 then |s| + k else 0
    ensures r == s[..|r|]
  {
    if k >= 0 then (if k < |s| then s[..k] else s)
    else (if |s| + k > 0 then s[..|s| + k] else [])
  }

  /** Number of elements that satisfy p (count_documents over a collection). */
  function Count<T>(s: seq<T>, p: T -> bool): (n: nat)
    ensures n <= |s|
  {
    if s == [] then 0 else Count(s[..|s| - 1], p) + (if p(s[|s| - 1]) then 1 else 0)
  }

  /** Elements that satisfy p, in order. */
  function Filter<T>(s: seq<T>, p: T -> bool): (r: seq<T>)
    ensures |r| == Count(s, p)
    ensures forall i | 0 <= i < |r| :: p(r[i])
  {
    if s == [] then [] else Filter(s[..|s| - 1], p) + (if p(s[|s| - 1]) then [s[|s| - 1]] else [])
  }

  /** f applied to each element, in order (a list comprehension). */
  function MapSeq<A, B>(s: seq<A>, f: A -> B): (r: seq<B>)
    ensures |r| == |s|
    ensures forall i | 0 <= i < |s| :: r[i] == f(s[i])
  {
    if s == [] then [] else MapSeq(s[..|s| - 1], f) + [f(s[|s| - 1])]
  }

  lemma MapSeqSnoc<A, B>(s: seq<A>, i: nat, f: A -> B)
    requires i < |s|
    ensures MapSeq(s[..i + 1], f) == MapSeq(s[..i], f) + [f(s[i])]
  {
    assert s[..i + 1][..i] == s[..i];
  }
}
