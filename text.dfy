/**
 * The three JavaScript string operations the plugin relies on, with their
 * JavaScript meaning: String.prototype.trim, String.prototype.split with a
 * string separator, and Array.prototype.join.
 */
module Text {

  /**
   * The characters String.prototype.trim removes: the ECMAScript WhiteSpace
   * set (tab, vertical tab, form feed, space, no-break space, byte-order mark
   * and the other Unicode "Zs" spaces) and the LineTerminator set (line
   * feed, carriage return, line and paragraph separator).
   */
  predicate IsSpace(c: char) {
    || c == '\t' || c == '\n' || c == '\U{000B}' || c == '\U{000C}' || c == '\r'
    || c == ' ' || c == '\U{00A0}' || c == '\U{1680}'
    || ('\U{2000}' <= c <= '\U{200A}')
    || c == '\U{2028}' || c == '\U{2029}' || c == '\U{202F}' || c == '\U{205F}'
    || c == '\U{3000}' || c == '\U{FEFF}'
  }

  /** Every character of s is whitespace (so `s.trim()` is empty and falsy). */
  predicate IsBlank(s: string) {
    forall k :: 0 <= k < |s| ==> IsSpace(s[k])
  }

  /** s neither starts nor ends with whitespace. */
  predicate IsTrimmed(s: string) {
    s == [] || (!IsSpace(s[0]) && !IsSpace(s[|s| - 1]))
  }

  /** s with its leading whitespace removed. */
  function TrimStart(s: string): (r: string)
    ensures |r| <= |s| && r == s[|s| - |r|..]
    ensures r == [] || !IsSpace(r[0])
  {
    if |s| > 0 && IsSpace(s[0]) then TrimStart(s[1..]) else s
  }

  /** s with its trailing whitespace removed. */
  function TrimEnd(s: string): (r: string)
    ensures |r| <= |s| && r == s[..|r|]
    ensures r == [] || !IsSpace(r[|r| - 1])
  {
    if |s| > 0 && IsSpace(s[|s| - 1]) then TrimEnd(s[..|s| - 1]) else s
  }

  /** `s.trim()`: s without its leading and trailing whitespace. */
  function Trim(s: string): (r: string)
    ensures IsTrimmed(r)
    ensures |r| <= |s|
  {
    TrimEnd(TrimStart(s))
  }

  /** `trim` leaves a string without surrounding whitespace as it is. */
  lemma {:induction false} TrimOfTrimmed(s: string)
    requires IsTrimmed(s)
    ensures Trim(s) == s
  {
    assert TrimStart(s) == s;
    assert TrimEnd(s) == s;
  }

  /** What TrimStart removes is blank. */
  lemma {:induction false} TrimStartRemovesBlank(s: string)
    ensures IsBlank(s[..|s| - |TrimStart(s)|])
  {
    if |s| > 0 && IsSpace(s[0]) {
      TrimStartRemovesBlank(s[1..]);
      var n := |s| - |TrimStart(s)|;
      forall k | 0 <= k < n ensures IsSpace(s[..n][k]) {
        if k > 0 { assert s[..n][k] == s[1..][..n - 1][k - 1]; }
      }
    }
  }

  /** What TrimEnd removes is blank. */
  lemma {:induction false} TrimEndRemovesBlank(s: string)
    ensures IsBlank(s[|TrimEnd(s)|..])
  {
    if |s| > 0 && IsSpace(s[|s| - 1]) {
      var p := s[..|s| - 1];
      TrimEndRemovesBlank(p);
      var m := |TrimEnd(s)|;
      forall k | 0 <= k < |s| - m ensures IsSpace(s[m..][k]) {
        if m + k < |s| - 1 { assert s[m..][k] == p[m..][k]; }
      }
    }
  }

  /** r sits in s at i, between a blank prefix and a blank suffix. */
  predicate BlankFramed(s: string, r: string, i: int) {
    && 0 <= i && i + |r| <= |s|
    && r == s[i..i + |r|]
    && IsBlank(s[..i]) && IsBlank(s[i + |r|..])
  }

  /**
   * The trimmed string is the part of s left after cutting a blank prefix
   * and a blank suffix.
   */
  lemma {:induction false} TrimIsInfix(s: string)
    ensures BlankFramed(s, Trim(s), |s| - |TrimStart(s)|)
  {
    var t := TrimStart(s);
    TrimStartRemovesBlank(s);
    TrimEndRemovesBlank(t);
    InfixOf(s, t, TrimEnd(t), |s| - |t|);
  }

  /**
   * r, a prefix of the suffix t = s[i..] followed in t by blank text, sits in
   * s at i between the blank text before t and the blank text after r.
   */
  lemma {:induction false} InfixOf(s: string, t: string, r: string, i: int)
    requires 0 <= i <= |s| && t == s[i..] && IsBlank(s[..i])
    requires |r| <= |t| && r == t[..|r|] && IsBlank(t[|r|..])
    ensures BlankFramed(s, r, i)
  {
    assert s[i + |r|..] == t[|r|..];
  }

  /** `s.trim()` is empty exactly when every character of s is whitespace. */
  lemma {:induction false} TrimEmptyIffBlank(s: string)
    ensures Trim(s) == [] <==> IsBlank(s)
  {
    TrimIsInfix(s);
    var r := Trim(s);
    var i := |s| - |TrimStart(s)|;
    if r == [] {
      BlankConcat(s[..i], s[i + |r|..]);
      assert s[..i] + s[i + |r|..] == s;
    } else {
      assert r[0] == s[i];
    }
  }

  /** Blank text in front of x does not survive TrimStart. */
  lemma {:induction false} TrimStartSkipsBlank(pad: string, x: string)
    requires IsBlank(pad)
    ensures TrimStart(pad + x) == TrimStart(x)
    decreases |pad|
  {
    if pad != [] {
      assert (pad + x)[0] == pad[0] && IsSpace(pad[0]);
      assert (pad + x)[1..] == pad[1..] + x;
      assert IsBlank(pad[1..]) by {
        forall k | 0 <= k < |pad[1..]| ensures IsSpace(pad[1..][k]) {
          assert pad[1..][k] == pad[k + 1];
        }
      }
      TrimStartSkipsBlank(pad[1..], x);
    } else {
      assert pad + x == x;
    }
  }

  /** Blank text after x does not survive TrimEnd. */
  lemma {:induction false} TrimEndSkipsBlank(x: string, pad: string)
    requires IsBlank(pad)
    ensures TrimEnd(x + pad) == TrimEnd(x)
    decreases |pad|
  {
    if pad != [] {
      assert (x + pad)[|x + pad| - 1] == pad[|pad| - 1] && IsSpace(pad[|pad| - 1]);
      assert (x + pad)[..|x + pad| - 1] == x + pad[..|pad| - 1];
      var init := pad[..|pad| - 1];
      assert IsBlank(init) by {
        forall k | 0 <= k < |init| ensures IsSpace(init[k]) {
          assert init[k] == pad[k];
        }
      }
      TrimEndSkipsBlank(x, pad[..|pad| - 1]);
    } else {
      assert x + pad == x;
    }
  }

  /** TrimStart stops inside s when s is not blank, so what follows s is kept. */
  lemma {:induction false} TrimStartAppend(s: string, y: string)
    requires TrimStart(s) != []
    ensures TrimStart(s + y) == TrimStart(s) + y
  {
    if IsSpace(s[0]) {
      assert (s + y)[1..] == s[1..] + y;
      TrimStartAppend(s[1..], y);
    }
  }

  /** Blank text before and after s does not change its trim. */
  lemma {:induction false} TrimIgnoresPadding(s: string, pre: string, post: string)
    requires IsBlank(pre) && IsBlank(post)
    ensures Trim(pre + s + post) == Trim(s)
  {
    TrimEmptyIffBlank(s);
    if IsBlank(s) {
      BlankConcat(pre, s);
      BlankConcat(pre + s, post);
      TrimEmptyIffBlank(pre + s + post);
    } else {
      assert TrimStart(s) != [];
      PaddedTrimStart(s, pre, post);
      TrimEndSkipsBlank(TrimStart(s), post);
    }
  }

  /** Around text that is not blank, TrimStart drops the blank text before it and keeps what follows it. */
  lemma {:induction false} PaddedTrimStart(s: string, pre: string, post: string)
    requires IsBlank(pre) && TrimStart(s) != []
    ensures TrimStart(pre + s + post) == TrimStart(s) + post
  {
    assert pre + s + post == pre + (s + post);
    TrimStartSkipsBlank(pre, s + post);
    TrimStartAppend(s, post);
  }

  /** Two blank strings make a blank string. */
  lemma {:induction false} BlankConcat(x: string, y: string)
    requires IsBlank(x) && IsBlank(y)
    ensures IsBlank(x + y)
  {
    forall k | 0 <= k < |x + y| ensures IsSpace((x + y)[k]) {
      if k >= |x| { assert (x + y)[k] == y[k - |x|]; }
    }
  }

  /** `parts.join(sep)`: the parts, in order, with sep between consecutive ones. */
  function Join(parts: seq<string>, sep: string): (r: string)
    ensures |parts| >= 1 ==> |parts[0]| <= |r| && r[..|parts[0]|] == parts[0]
  {
    if |parts| == 0 then ""
    else if |parts| == 1 then parts[0]
    else parts[0] + sep + Join(parts[1..], sep)
  }

  /** An occurrence of sep starts at position i of x. */
  predicate OccursAt(x: string, sep: string, i: int) {
    0 <= i && i + |sep| <= |x| && x[i..i + |sep|] == sep
  }

  /** sep occurs nowhere in x. */
  predicate NoSepIn(x: string, sep: string) {
    forall i :: 0 <= i <= |x| - |sep| ==> !OccursAt(x, sep, i)
  }

  /**
   * `s.split(sep)` for a non-empty string separator: s cut at the occurrences
   * of sep found scanning left to right, each one consumed before the scan
   * resumes. The empty string splits into one empty piece.
   */
  function Split(s: string, sep: string): (r: seq<string>)
    requires |sep| > 0
    ensures |r| >= 1
    ensures Join(r, sep) == s
    decreases |s|
  {
    if |s| < |sep| then
      [s]
    else if s[..|sep|] == sep then
      [""] + Split(s[|sep|..], sep)
    else
      var rest := Split(s[1..], sep);
      [[s[0]] + rest[0]] + rest[1..]
  }

  /** No piece of a split contains the separator. */
  lemma {:induction false} SplitPiecesHaveNoSep(s: string, sep: string)
    requires |sep| > 0
    ensures forall k :: 0 <= k < |Split(s, sep)| ==> NoSepIn(Split(s, sep)[k], sep)
    decreases |s|
  {
    if |s| < |sep| {
      assert Split(s, sep) == [s];
    } else if s[..|sep|] == sep {
      SplitPiecesHaveNoSep(s[|sep|..], sep);
      assert Split(s, sep) == [""] + Split(s[|sep|..], sep);
    } else {
      SplitPiecesHaveNoSep(s[1..], sep);
      var rest := Split(s[1..], sep);
      assert |rest[0]| <= |Join(rest, sep)|;
      var first := [s[0]] + rest[0];
      assert first == s[..|first|];
      assert !OccursAt(first, sep, 0) by {
        if |sep| <= |first| {
          assert first[..|sep|] == s[..|sep|];
        }
      }
      ConsKeepsNoSep(s[0], rest[0], sep);
      assert Split(s, sep) == [first] + rest[1..];
    }
  }

  /** A character put before a string without sep creates none, unless at the start. */
  lemma {:induction false} ConsKeepsNoSep(c: char, x: string, sep: string)
    requires NoSepIn(x, sep) && !OccursAt([c] + x, sep, 0)
    ensures NoSepIn([c] + x, sep)
  {
    var y := [c] + x;
    forall i | 0 < i <= |y| - |sep| ensures !OccursAt(y, sep, i) {
      assert !OccursAt(x, sep, i - 1);
      assert y[i..i + |sep|] == x[i - 1..i - 1 + |sep|];
    }
  }

  /** A string without sep splits into itself alone. */
  lemma {:induction false} SplitWithoutSep(s: string, sep: string)
    requires |sep| > 0 && NoSepIn(s, sep)
    ensures Split(s, sep) == [s]
    decreases |s|
  {
    if |s| >= |sep| {
      assert !OccursAt(s, sep, 0);
      assert NoSepIn(s[1..], sep) by {
        forall i | OccursAt(s[1..], sep, i) ensures false {
          assert s[1..][i..i + |sep|] == s[i + 1..i + 1 + |sep|];
          assert OccursAt(s, sep, i + 1);
        }
      }
      SplitWithoutSep(s[1..], sep);
      assert [s[0]] + s[1..] == s;
    }
  }

  /**
   * When no occurrence of sep starts inside a (none inside a, none reaching
   * from a's end into the separator after it), splitting a + sep + b cuts
   * exactly at that separator first.
   */
  lemma {:induction false} SplitAtFirstSep(a: string, b: string, sep: string)
    requires |sep| > 0 && NoSepIn(a + sep[..|sep| - 1], sep)
    ensures Split(a + sep + b, sep) == [a] + Split(b, sep)
    decreases |a|
  {
    var s := a + sep + b;
    if |a| == 0 {
      assert s[..|sep|] == sep;
      assert s[|sep|..] == b;
    } else {
      var w := a + sep[..|sep| - 1];
      assert s[..|sep|] == w[..|sep|];
      assert !OccursAt(w, sep, 0);
      assert s[1..] == a[1..] + sep + b;
      NoSepInDrop(w, sep);
      assert w[1..] == a[1..] + sep[..|sep| - 1];
      SplitAtFirstSep(a[1..], b, sep);
      assert [a[0]] + a[1..] == a;
    }
  }

  /** Dropping the first character of a string without sep leaves one without sep. */
  lemma {:induction false} NoSepInDrop(w: string, sep: string)
    requires |w| > 0 && NoSepIn(w, sep)
    ensures NoSepIn(w[1..], sep)
  {
    forall i | 0 <= i <= |w[1..]| - |sep| ensures !OccursAt(w[1..], sep, i) {
      assert !OccursAt(w, sep, i + 1);
      assert w[1..][i..i + |sep|] == w[i + 1..i + 1 + |sep|];
    }
  }

  /**
   * Splitting a join gives the parts back when no separator occurrence
   * starts inside any part but the boundaries chosen by the join.
   */
  lemma {:induction false} SplitJoin(parts: seq<string>, sep: string)
    requires |sep| > 0 && |parts| >= 1
    requires forall k :: 0 <= k < |parts| - 1 ==> NoSepIn(parts[k] + sep[..|sep| - 1], sep)
    requires NoSepIn(parts[|parts| - 1], sep)
    ensures Split(Join(parts, sep), sep) == parts
    decreases |parts|
  {
    if |parts| == 1 {
      SplitWithoutSep(parts[0], sep);
    } else {
      SplitJoin(parts[1..], sep);
      SplitAtFirstSep(parts[0], Join(parts[1..], sep), sep);
      assert [parts[0]] + parts[1..] == parts;
    }
  }
}
