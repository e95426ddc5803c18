/**
 String operations the handlers use: `Array.prototype.join`, `String.prototype.slice(0, n)`
 and `String.prototype.trim`.
 */
module Text {

  function Min(a: int, b: int): int {
    if a <= b then a else b
  }

  /** Total length of all parts. */
  function TotalLength(parts: seq<string>): nat {
    if parts == [] then 0 else |parts[0]| + TotalLength(parts[1..])
  }

  /** `parts.join(sep)`: the parts in order with `sep` between neighbours. */
  function Join(parts: seq<string>, sep: string): (r: string)
    ensures |parts| > 0 ==> |r| == TotalLength(parts) + (|parts| - 1) * |sep|
    ensures |parts| > 0 ==> r[..|parts[0]|] == parts[0]
    ensures parts == [] ==> r == ""
  {
    if |parts| == 0 then ""
    else if |parts| == 1 then parts[0]
    else parts[0] + sep + Join(parts[1..], sep)
  }

  /** Appending a part appends the separator and that part. */
  lemma {:induction false} JoinSnoc(parts: seq<string>, p: string, sep: string)
    requires |parts| > 0
    ensures Join(parts + [p], sep) == Join(parts, sep) + sep + p
  {
    if |parts| == 1 {
      assert parts + [p] == [parts[0], p];
    } else {
      assert (parts + [p])[1..] == parts[1..] + [p];
      JoinSnoc(parts[1..], p, sep);
    }
  }

  /** A join of non-empty parts is empty exactly when there are no parts. */
  lemma JoinEmptyIff(parts: seq<string>, sep: string)
    requires forall i :: 0 <= i < |parts| ==> parts[i] != ""
    ensures Join(parts, sep) == "" <==> parts == []
  {
    if parts != [] {
      assert |Join(parts, sep)| >= |parts[0]| > 0 by {
        assert Join(parts, sep)[..|parts[0]|] == parts[0];
      }
    }
  }

  /** `s.slice(0, n)` for `n >= 0`: the first `min(n, |s|)` characters. */
  function Prefix(s: string, n: nat): (r: string)
    ensures |r| == Min(n, |s|)
    ensures r == s[..|r|]
    ensures |s| <= n ==> r == s
  {
    if |s| <= n then s else s[..n]
  }

  /**
   The characters `String.prototype.trim` removes: WhiteSpace (section 12.2 of
   ECMAScript 2023, Unicode category Zs as of Unicode 15) and LineTerminator
   (section 12.3).
   */
  predicate IsWhitespace(c: char)
    ensures IsWhitespace(c) ==> c as int <= 0xFEFF
    ensures c as int < 128 ==>
      (IsWhitespace(c) <==> c == '\t' || c == '\n' || c == '\U{000B}' || c == '\U{000C}' || c == '\r' || c == ' ')
  {
    || c == '\t' || c == '\U{000B}' || c == '\U{000C}' || c == ' '
    || c == '\U{00A0}' || c == '\U{FEFF}' || c == '\U{1680}'
    || ('\U{2000}' <= c <= '\U{200A}')
    || c == '\U{202F}' || c == '\U{205F}' || c == '\U{3000}'
    || c == '\n' || c == '\r' || c == '\U{2028}' || c == '\U{2029}'
  }

  predicate AllWhitespace(s: string) {
    forall i :: 0 <= i < |s| ==> IsWhitespace(s[i])
  }

  /** The index of the first non-whitespace character at or after `i`, or `|s|`. */
  function SkipLeading(s: string, i: nat): (j: nat)
    requires i <= |s|
    ensures i <= j <= |s|
    ensures forall k :: i <= k < j ==> IsWhitespace(s[k])
    ensures j < |s| ==> !IsWhitespace(s[j])
    decreases |s| - i
  {
    if i < |s| && IsWhitespace(s[i]) then SkipLeading(s, i + 1) else i
  }

  /** The end of `s[lo..j]` once its trailing whitespace is dropped. */
  function SkipTrailing(s: string, lo: nat, j: nat): (k: nat)
    requires lo <= j <= |s|
    ensures lo <= k <= j
    ensures forall m :: k <= m < j ==> IsWhitespace(s[m])
    ensures k > lo ==> !IsWhitespace(s[k - 1])
    decreases j - lo
  {
    if j > lo && IsWhitespace(s[j - 1]) then SkipTrailing(s, lo, j - 1) else j
  }

  /** `s.trim()`: the slice of `s` that neither starts nor ends with whitespace
      and leaves only whitespace outside it. */
  function Trim(s: string): (r: string)
    ensures exists a, b ::
              && 0 <= a <= b <= |s| && r == s[a..b]
              && (forall i :: 0 <= i < a ==> IsWhitespace(s[i]))
              && (forall i :: b <= i < |s| ==> IsWhitespace(s[i]))
    ensures r != "" ==> !IsWhitespace(r[0]) && !IsWhitespace(r[|r| - 1])
  {
    var a := SkipLeading(s, 0);
    var b := SkipTrailing(s, a, |s|);
    s[a..b]
  }

  /** A string trims to "" exactly when every character of it is whitespace. */
  lemma TrimEmptyIff(s: string)
    ensures Trim(s) == "" <==> AllWhitespace(s)
  {
    var a := SkipLeading(s, 0);
    var b := SkipTrailing(s, a, |s|);
    if AllWhitespace(s) {
      assert a == |s|;
    }
  }
}
