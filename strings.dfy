/**
 * The string primitives the application relies on: `toLowerCase`, `trim`,
 * `includes`, `indexOf`, `split(',')[1]` and the default `Array.prototype.sort`
 * order. Case folding and white space are restricted to ASCII; the sort order
 * is the lexicographic order of character codes.
 */
module Strings {
  import opened Wrappers

  predicate IsUpper(c: char) { 'A' <= c <= 'Z' }

  function LowerChar(c: char): (d: char)
    ensures IsUpper(c) ==> d as int == c as int + 32
    ensures !IsUpper(c) ==> d == c
  {
    if IsUpper(c) then (c as int + 32) as char else c
  }

  /** ASCII `toLowerCase`. */
  function Lower(s: string): (r: string)
    ensures |r| == |s|
    ensures forall i :: 0 <= i < |s| ==> r[i] == LowerChar(s[i])
  {
    if s == [] then [] else [LowerChar(s[0])] + Lower(s[1..])
  }

  lemma LowerIdempotent(s: string)
    ensures Lower(Lower(s)) == Lower(s)
  {
    assert forall i :: 0 <= i < |s| ==> Lower(Lower(s))[i] == Lower(s)[i];
  }

  /** The ASCII white-space characters that `trim` removes. */
  predicate IsSpace(c: char) {
    c == ' ' || c == '\t' || c == '\n' || c == '\r' || c == '\U{000B}' || c == '\U{000C}'
  }

  function TrimStart(s: string): (r: string)
    ensures |r| <= |s| && r == s[|s| - |r|..]
    ensures r != [] ==> !IsSpace(r[0])
    ensures forall i :: 0 <= i < |s| - |r| ==> IsSpace(s[i])
  {
    if s != [] && IsSpace(s[0]) then TrimStart(s[1..]) else s
  }

  function TrimEnd(s: string): (r: string)
    ensures |r| <= |s| && r == s[..|r|]
    ensures r != [] ==> !IsSpace(r[|r| - 1])
    ensures forall i :: |r| <= i < |s| ==> IsSpace(s[i])
  {
    if s != [] && IsSpace(s[|s| - 1]) then TrimEnd(s[..|s| - 1]) else s
  }

  /** `String.prototype.trim`: the slice left after removing leading and trailing white space. */
  function Trim(s: string): (r: string)
    ensures |r| <= |s|
    ensures r != [] ==> !IsSpace(r[0]) && !IsSpace(r[|r| - 1])
    ensures r == [] <==> forall i :: 0 <= i < |s| ==> IsSpace(s[i])
    ensures exists i, j :: 0 <= i <= j <= |s| && r == s[i..j] && AllSpace(s[..i]) && AllSpace(s[j..])
  {
    var t := TrimStart(s);
    var r := TrimEnd(t);
    TrimmedIsSlice(s, t, r);
    r
  }

  /** Cutting white space from the front and then from the back leaves a slice between all-space ends. */
  lemma TrimmedIsSlice(s: string, t: string, r: string)
    requires |t| <= |s| && t == s[|s| - |t|..] && forall k :: 0 <= k < |s| - |t| ==> IsSpace(s[k])
    requires |r| <= |t| && r == t[..|r|] && forall k :: |r| <= k < |t| ==> IsSpace(t[k])
    ensures var i := |s| - |t|; r == s[i..i + |r|] && AllSpace(s[..i]) && AllSpace(s[i + |r|..])
  {
    var i := |s| - |t|;
    var j := i + |r|;
    assert forall k :: 0 <= k < |s[j..]| ==> s[j..][k] == t[|r| + k];
  }

  predicate AllSpace(s: string) {
    forall i :: 0 <= i < |s| ==> IsSpace(s[i])
  }

  /** Trailing white space does not survive `trim`. */
  lemma TrimDropsTrailingSpace(s: string, c: char)
    requires IsSpace(c)
    ensures Trim(s + [c]) == Trim(s)
  {
    TrimStartSnoc(s, c);
    if !AllSpace(s) {
      TrimEndSnoc(TrimStart(s), c);
    } else {
      assert TrimStart(s) == [];
    }
  }

  lemma {:induction false} TrimStartSnoc(s: string, c: char)
    requires IsSpace(c)
    ensures AllSpace(s) ==> TrimStart(s + [c]) == []
    ensures !AllSpace(s) ==> TrimStart(s + [c]) == TrimStart(s) + [c]
  {
    if s == [] {
      assert [c][1..] == [];
    } else {
      AllSpaceCons(s);
      if IsSpace(s[0]) {
        assert (s + [c])[1..] == s[1..] + [c];
        TrimStartSnoc(s[1..], c);
      }
    }
  }

  lemma AllSpaceCons(s: string)
    requires s != []
    ensures AllSpace(s) <==> IsSpace(s[0]) && AllSpace(s[1..])
  {
    if IsSpace(s[0]) && AllSpace(s[1..]) {
      forall i | 0 < i < |s| ensures IsSpace(s[i]) {
        assert s[i] == s[1..][i - 1];
      }
    }
  }

  lemma TrimEndSnoc(s: string, c: char)
    requires IsSpace(c)
    ensures TrimEnd(s + [c]) == TrimEnd(s)
  {
    assert (s + [c])[..|s|] == s;
  }

  predicate IsPrefix(p: string, s: string) {
    |p| <= |s| && s[..|p|] == p
  }

  /** `s.includes(sub)`. */
  predicate Contains(s: string, sub: string)
    decreases |s|
  {
    IsPrefix(sub, s) || (s != [] && Contains(s[1..], sub))
  }

  lemma ContainsEmpty(s: string)
    ensures Contains(s, "")
  {
  }

  /** A string contains every one of its slices. */
  lemma {:induction false} ContainsSlice(s: string, i: nat, j: nat)
    requires i <= j <= |s|
    ensures Contains(s, s[i..j])
    decreases i
  {
    if i == 0 {
      assert IsPrefix(s[i..j], s);
    } else {
      var t := s[1..];
      assert forall k :: 0 <= k < j - i ==> t[i - 1..j - 1][k] == s[i..j][k];
      assert t[i - 1..j - 1] == s[i..j];
      ContainsSlice(t, i - 1, j - 1);
    }
  }

  /** Index of the first occurrence of `c` (`indexOf`). */
  function IndexOf(s: string, c: char): (r: Option<nat>)
    ensures r.Some? ==> r.value < |s| && s[r.value] == c && forall j :: 0 <= j < r.value ==> s[j] != c
    ensures r.None? ==> forall j :: 0 <= j < |s| ==> s[j] != c
  {
    if s == [] then None
    else if s[0] == c then Some(0)
    else match IndexOf(s[1..], c)
      case None => None
      case Some(k) => Some(k + 1)
  }

  /** Index of the last occurrence of `c` (`lastIndexOf`). */
  function LastIndexOf(s: string, c: char): (r: Option<nat>)
    ensures r.Some? ==> r.value < |s| && s[r.value] == c && forall j :: r.value < j < |s| ==> s[j] != c
    ensures r.None? ==> forall j :: 0 <= j < |s| ==> s[j] != c
  {
    if s == [] then None
    else if s[|s| - 1] == c then Some(|s| - 1)
    else LastIndexOf(s[..|s| - 1], c)
  }

  /** The text before the first `c`, or all of `s` when there is none. */
  function TakeUntil(s: string, c: char): (r: string)
    ensures IsPrefix(r, s)
    ensures forall j :: 0 <= j < |r| ==> r[j] != c
    ensures |r| < |s| ==> s[|r|] == c
  {
    match IndexOf(s, c)
    case None => s
    case Some(k) => s[..k]
  }

  /** `s.split(c)[1]`: the second field, undefined (None) when `c` does not occur. */
  function SecondField(s: string, c: char): (r: Option<string>)
    ensures r.None? <==> forall j :: 0 <= j < |s| ==> s[j] != c
  {
    match IndexOf(s, c)
    case None => None
    case Some(k) => Some(TakeUntil(s[k + 1..], c))
  }

  /** The field that follows the first separator and runs up to the next one. */
  lemma SecondFieldOfThree(a: string, b: string, rest: string, c: char)
    requires forall j :: 0 <= j < |a| ==> a[j] != c
    requires forall j :: 0 <= j < |b| ==> b[j] != c
    ensures SecondField(a + [c] + b + [c] + rest, c) == Some(b)
    ensures SecondField(a + [c] + b, c) == Some(b)
  {
    var s := a + [c] + b + [c] + rest;
    assert s[|a|] == c;
    assert s == a + ([c] + b + [c] + rest);
    IndexOfPrefixFree(a, [c] + b + [c] + rest, c);
    assert s[|a| + 1..] == b + ([c] + rest);
    IndexOfPrefixFree(b, [c] + rest, c);
    assert (b + ([c] + rest))[..|b|] == b;
    var t := a + [c] + b;
    assert t == a + ([c] + b);
    IndexOfPrefixFree(a, [c] + b, c);
    assert t[|a| + 1..] == b;
  }

  lemma {:induction false} IndexOfPrefixFree(a: string, rest: string, c: char)
    requires forall j :: 0 <= j < |a| ==> a[j] != c
    requires rest != [] && rest[0] == c
    ensures IndexOf(a + rest, c) == Some(|a|)
  {
    if a != [] {
      assert (a + rest)[1..] == a[1..] + rest;
      IndexOfPrefixFree(a[1..], rest, c);
    } else {
      assert a + rest == rest;
    }
  }

  /** Lexicographic order on character codes (the default `sort` comparator). */
  predicate Less(a: string, b: string)
    decreases |a|
  {
    if a == [] then b != []
    else b != [] && (a[0] < b[0] || (a[0] == b[0] && Less(a[1..], b[1..])))
  }

  lemma {:induction false} LessIrreflexive(a: string)
    ensures !Less(a, a)
    decreases |a|
  {
    if a != [] { LessIrreflexive(a[1..]); }
  }

  lemma {:induction false} LessTransitive(a: string, b: string, c: string)
    requires Less(a, b) && Less(b, c)
    ensures Less(a, c)
    decreases |a|
  {
    if a != [] && a[0] == b[0] && b[0] == c[0] {
      LessTransitive(a[1..], b[1..], c[1..]);
    }
  }

  lemma {:induction false} LessTotal(a: string, b: string)
    requires a != b
    ensures Less(a, b) || Less(b, a)
    decreases |a|
  {
    if a != [] && b != [] && a[0] == b[0] {
      LessTotal(a[1..], b[1..]);
    }
  }
}
