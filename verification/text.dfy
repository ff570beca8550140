/**
 * The string operations the monitor relies on: Python's `str.split(',')`,
 * `str.lower()` (ASCII letters only), slicing `s[:n]` and
 * `str.replace(from, to)` for single characters.
 */
module Text {

  /** Index of the first comma in `s`, or `|s|` when there is none. */
  function CommaIndex(s: string): (k: nat)
    ensures k <= |s|
    ensures k < |s| ==> s[k] == ','
    ensures forall j :: 0 <= j < k ==> s[j] != ','
  {
    if s == [] || s[0] == ',' then 0 else 1 + CommaIndex(s[1..])
  }

  /**
   * `s.split(',')`: the pieces between commas, in order, with nothing
   * trimmed; the empty string gives one empty piece.
   */
  function Split(s: string): (pieces: seq<string>)
    ensures |pieces| >= 1
    ensures forall p :: p in pieces ==> ',' !in p
    decreases |s|
  {
    var k := CommaIndex(s);
    if k == |s| then [s] else [s[..k]] + Split(s[k + 1..])
  }

  /** `','.join(pieces)`, the inverse of `Split`. */
  function Join(pieces: seq<string>): (s: string)
    requires |pieces| >= 1
  {
    if |pieces| == 1 then pieces[0] else pieces[0] + [','] + Join(pieces[1..])
  }

  /** Splitting and joining again gives back the original text. */
  lemma {:induction false} JoinSplit(s: string)
    ensures Join(Split(s)) == s
    decreases |s|
  {
    var k := CommaIndex(s);
    if k < |s| {
      JoinSplit(s[k + 1..]);
      assert s == s[..k] + [','] + s[k + 1..];
    }
  }

  /** Joining comma-free pieces and splitting again gives back the pieces. */
  lemma {:induction false} SplitJoin(pieces: seq<string>)
    requires |pieces| >= 1
    requires forall p :: p in pieces ==> ',' !in p
    ensures Split(Join(pieces)) == pieces
    decreases |pieces|
  {
    var p := pieces[0];
    assert p in pieces;
    if |pieces| > 1 {
      var rest := pieces[1..];
      assert forall q :: q in rest ==> q in pieces;
      SplitJoin(rest);
      var s := p + [','] + Join(rest);
      assert s[|p|] == ',';
      assert forall j :: 0 <= j < |p| ==> s[j] == p[j];
      assert CommaIndex(s) == |p|;
      assert s[..|p|] == p;
      assert s[|p| + 1..] == Join(rest);
    } else {
      assert CommaIndex(p) == |p|;
    }
  }

  /**
   * `name` occurs in `s` starting at `i`, bounded on each side by a comma or
   * by the end of `s`.
   */
  ghost predicate DelimitedAt(s: string, name: string, i: nat)
  {
    && i + |name| <= |s|
    && s[i..i + |name|] == name
    && (i == 0 || s[i - 1] == ',')
    && (i + |name| == |s| || s[i + |name|] == ',')
  }

  /** Every piece of `s.split(',')` occurs in `s` between commas. */
  lemma {:induction false} PieceIsDelimited(s: string, name: string) returns (i: nat)
    requires name in Split(s)
    ensures DelimitedAt(s, name, i)
    decreases |s|
  {
    var k := CommaIndex(s);
    if k == |s| {
      i := 0;
    } else if name == s[..k] {
      i := 0;
    } else {
      var t := s[k + 1..];
      var j := PieceIsDelimited(t, name);
      i := j + k + 1;
      assert s[i..i + |name|] == t[j..j + |name|];
    }
  }

  /** A comma-free string occurring in `s` between commas is a piece of `s.split(',')`. */
  lemma {:induction false} DelimitedIsPiece(s: string, name: string, i: nat)
    requires ',' !in name && DelimitedAt(s, name, i)
    ensures name in Split(s)
    decreases |s|
  {
    var k := CommaIndex(s);
    if i == 0 {
      if |name| > k {
        assert false;
      }
      if |name| < k {
        assert false;
      }
      assert name == s[..k];
      if k == |s| {
        assert name == s;
      }
      assert Split(s)[0] == name;
    } else if i <= k {
      assert false;
    } else {
      var t := s[k + 1..];
      var j: nat := i - k - 1;
      assert j + |name| <= |t|;
      assert t[j..j + |name|] == s[i..i + |name|];
      assert j == 0 || t[j - 1] == s[i - 1];
      assert j + |name| == |t| || t[j + |name|] == s[i + |name|];
      DelimitedIsPiece(t, name, j);
      assert Split(s) == [s[..k]] + Split(t);
    }
  }

  /**
   * Membership in `s.split(',')` is exact, untrimmed membership: a string is
   * one of the pieces exactly when it holds no comma and occurs in `s`
   * bounded by commas or the ends of `s`.
   */
  lemma InSplitIff(s: string, name: string)
    ensures name in Split(s) <==> ',' !in name && exists i: nat :: DelimitedAt(s, name, i)
  {
    if name in Split(s) {
      var i := PieceIsDelimited(s, name);
    }
    if ',' !in name && exists i: nat :: DelimitedAt(s, name, i) {
      var i: nat :| DelimitedAt(s, name, i);
      DelimitedIsPiece(s, name, i);
    }
  }

  /** Python's `str.lower()` on one character, for the ASCII letters. */
  function LowerChar(c: char): (d: char)
    ensures !('A' <= d <= 'Z')
    ensures 'A' <= c <= 'Z' ==> d as int == c as int + 32
    ensures !('A' <= c <= 'Z') ==> d == c
  {
    if 'A' <= c <= 'Z' then (c as int - 'A' as int + 'a' as int) as char else c
  }

  /** `s.lower()`, letter by letter. */
  function Lower(s: string): (r: string)
    ensures |r| == |s|
    ensures forall i :: 0 <= i < |s| ==> r[i] == LowerChar(s[i])
  {
    if s == [] then [] else [LowerChar(s[0])] + Lower(s[1..])
  }

  /** True when `s` holds an upper-case ASCII letter. */
  predicate HasUpper(s: string)
  {
    exists i :: 0 <= i < |s| && 'A' <= s[i] <= 'Z'
  }

  /** `s[:n]`: at most the first `n` characters. */
  function Take(s: string, n: nat): (r: string)
    ensures |r| <= n && |r| <= |s|
    ensures |s| <= n ==> r == s
    ensures |r| == n || r == s
    ensures forall i :: 0 <= i < |r| ==> r[i] == s[i]
  {
    if |s| <= n then s else s[..n]
  }

  /** `s.replace(old, new)` for one character replaced by one character. */
  function Replace(s: string, from: char, to: char): (r: string)
    ensures |r| == |s|
    ensures forall i :: 0 <= i < |s| ==> r[i] == if s[i] == from then to else s[i]
  {
    if s == [] then [] else [if s[0] == from then to else s[0]] + Replace(s[1..], from, to)
  }
}
