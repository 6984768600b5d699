/**
 * The string operations the planner uses: `toLowerCase`/`toUpperCase` (ASCII letters
 * only), `includes`, `trim`, `split` on one character, `join`, and the order in which
 * `localeCompare` puts fixed-width "HH:MM" times.
 */
module Text {

  // ---------------------------------------------------------------------------
  // case mapping (ASCII)

  function ToLowerChar(c: char): (r: char)
    ensures 'A' <= c <= 'Z' ==> r as int == c as int + 32
    ensures !('A' <= c <= 'Z') ==> r == c
  {
    if 'A' <= c <= 'Z' then (c as int + 32) as char else c
  }

  function ToUpperChar(c: char): (r: char)
    ensures 'a' <= c <= 'z' ==> r as int == c as int - 32
    ensures !('a' <= c <= 'z') ==> r == c
  {
    if 'a' <= c <= 'z' then (c as int - 32) as char else c
  }

  function Lower(s: string): (r: string)
    ensures |r| == |s|
    ensures forall i :: 0 <= i < |s| ==> r[i] == ToLowerChar(s[i])
  {
    seq(|s|, i requires 0 <= i < |s| => ToLowerChar(s[i]))
  }

  function Upper(s: string): (r: string)
    ensures |r| == |s|
    ensures forall i :: 0 <= i < |s| ==> r[i] == ToUpperChar(s[i])
  {
    seq(|s|, i requires 0 <= i < |s| => ToUpperChar(s[i]))
  }

  /** Lower-casing ignores the case a string was typed in. */
  lemma LowerIgnoresCase(s: string)
    ensures Lower(Upper(s)) == Lower(s)
  {
    assert forall i :: 0 <= i < |s| ==> ToLowerChar(ToUpperChar(s[i])) == ToLowerChar(s[i]);
  }

  // ---------------------------------------------------------------------------
  // includes

  predicate StartsWith(s: string, prefix: string)
  {
    |prefix| <= |s| && s[..|prefix|] == prefix
  }

  /** `hay.includes(needle)`: `needle` occurs in `hay` at some position. */
  predicate Includes(hay: string, needle: string)
    decreases |hay|
  {
    StartsWith(hay, needle) || (hay != [] && Includes(hay[1..], needle))
  }

  /** `part` stands in `s` at position `i`. */
  predicate SliceAt(s: string, part: string, i: int)
  {
    0 <= i && i + |part| <= |s| && s[i..i + |part|] == part
  }

  /** `includes` finds `needle` exactly when it stands somewhere in `hay`. */
  lemma {:induction false} IncludesAt(hay: string, needle: string)
    ensures Includes(hay, needle) <==> exists i :: SliceAt(hay, needle, i)
    decreases |hay|
  {
    if StartsWith(hay, needle) {
      assert SliceAt(hay, needle, 0);
    }
    if hay != [] {
      IncludesAt(hay[1..], needle);
      if Includes(hay[1..], needle) {
        var i :| SliceAt(hay[1..], needle, i);
        assert hay[i + 1..i + 1 + |needle|] == hay[1..][i..i + |needle|];
        assert SliceAt(hay, needle, i + 1);
      }
      if exists i :: SliceAt(hay, needle, i) {
        var i :| SliceAt(hay, needle, i);
        if i > 0 {
          assert hay[1..][i - 1..i - 1 + |needle|] == hay[i..i + |needle|];
          assert SliceAt(hay[1..], needle, i - 1);
        }
      }
    } else {
      if exists i :: SliceAt(hay, needle, i) {
        var i :| SliceAt(hay, needle, i);
        assert i == 0;
      }
    }
  }

  /** Every string includes the empty string. */
  lemma IncludesEmpty(hay: string)
    ensures Includes(hay, [])
  {
  }

  // ---------------------------------------------------------------------------
  // trim

  /** The characters `String.prototype.trim` removes: white space and line terminators. */
  predicate IsWhite(c: char)
  {
    || c == '\t' || c == '\n' || c == '\U{000B}' || c == '\U{000C}' || c == '\r'
    || c == ' ' || c == '\U{00A0}' || c == '\U{1680}'
    || ('\U{2000}' <= c <= '\U{200A}')
    || c == '\U{2028}' || c == '\U{2029}' || c == '\U{202F}' || c == '\U{205F}'
    || c == '\U{3000}' || c == '\U{FEFF}'
  }

  function TrimStart(s: string): (r: string)
    ensures |r| <= |s| && r == s[|s| - |r|..]
    ensures r == [] || !IsWhite(r[0])
    ensures forall k :: 0 <= k < |s| - |r| ==> IsWhite(s[k])
  {
    if s != [] && IsWhite(s[0]) then TrimStart(s[1..]) else s
  }

  function TrimEnd(s: string): (r: string)
    ensures |r| <= |s| && r == s[..|r|]
    ensures r == [] || !IsWhite(r[|r| - 1])
    ensures forall k :: |r| <= k < |s| ==> IsWhite(s[k])
  {
    if s != [] && IsWhite(s[|s| - 1]) then TrimEnd(s[..|s| - 1]) else s
  }

  /**
   * `s.trim()`: the part of `s` between its leading and trailing white space; it
   * neither starts nor ends with white space, and it is empty exactly when `s` is all
   * white space.
   */
  function Trim(s: string): (r: string)
    ensures exists i :: SliceAt(s, r, i)
    ensures r != [] ==> !IsWhite(r[0]) && !IsWhite(r[|r| - 1])
    ensures r == [] <==> forall k :: 0 <= k < |s| ==> IsWhite(s[k])
  {
    var r := TrimEnd(TrimStart(s));
    TrimIsSlice(s);
    assert exists i :: SliceAt(s, r, i);
    TrimEnds(s);
    TrimEmpty(s);
    r
  }

  lemma TrimIsSlice(s: string)
    ensures SliceAt(s, TrimEnd(TrimStart(s)), |s| - |TrimStart(s)|)
  {
    var a := TrimStart(s);
    var r := TrimEnd(a);
    var d := |s| - |a|;
    assert a == s[d..] && r == a[..|r|];
    PrefixOfSuffix(s, d, |r|);
    assert r == s[d..d + |r|];
  }

  lemma PrefixOfSuffix(s: string, d: nat, m: nat)
    requires d + m <= |s|
    ensures s[d..][..m] == s[d..d + m]
  {
  }

  lemma TrimEnds(s: string)
    ensures var r := TrimEnd(TrimStart(s));
      r != [] ==> !IsWhite(r[0]) && !IsWhite(r[|r| - 1])
  {
    var a := TrimStart(s);
    var r := TrimEnd(a);
    assert r != [] ==> r[0] == a[0];
  }

  lemma TrimEmpty(s: string)
    ensures TrimEnd(TrimStart(s)) == [] <==> forall k :: 0 <= k < |s| ==> IsWhite(s[k])
  {
    var a := TrimStart(s);
    var r := TrimEnd(a);
    var d := |s| - |a|;
    assert a != [] ==> a[0] == s[d] && !IsWhite(s[d]);
    assert r == [] ==> a == [];
  }

  // ---------------------------------------------------------------------------
  // split and join

  /**
   * `s.split(sep)` for a one-character separator: the pieces between separators,
   * empty pieces included; the empty string gives one empty piece.
   */
  function Split(s: string, sep: char): (r: seq<string>)
    ensures |r| >= 1
    ensures forall w :: w in r ==> sep !in w
  {
    if s == [] then [[]]
    else
      var rest := Split(s[1..], sep);
      if s[0] == sep then [[]] + rest
      else
        assert forall w :: w in rest[1..] ==> w in rest;
        [[s[0]] + rest[0]] + rest[1..]
  }

  lemma {:induction false} SplitPrefix(w: string, tail: string, sep: char)
    requires sep !in w
    ensures Split(w + tail, sep) == [w + Split(tail, sep)[0]] + Split(tail, sep)[1..]
  {
    if w == [] {
      assert w + tail == tail;
      var t := Split(tail, sep);
      assert w + t[0] == t[0];
      assert [t[0]] + t[1..] == t;
    } else {
      var s := w + tail;
      var t := Split(tail, sep);
      assert s[0] == w[0] != sep;
      assert s[1..] == w[1..] + tail;
      SplitPrefix(w[1..], tail, sep);
      var rest := Split(s[1..], sep);
      assert rest[0] == w[1..] + t[0] && rest[1..] == t[1..];
      assert Split(s, sep) == [[s[0]] + rest[0]] + rest[1..];
      assert [w[0]] + (w[1..] + t[0]) == w + t[0];
    }
  }

  /**
   * The first piece of `s.split(sep)` is the longest prefix of `s` without `sep`;
   * when `s` contains `sep`, the first `sep` comes right after it.
   */
  lemma {:induction false} SplitFirst(s: string, sep: char)
    ensures StartsWith(s, Split(s, sep)[0])
    ensures sep !in Split(s, sep)[0]
    ensures sep in s ==> |Split(s, sep)[0]| < |s| && s[|Split(s, sep)[0]|] == sep
    ensures sep !in s ==> Split(s, sep)[0] == s
  {
    if s != [] {
      SplitFirst(s[1..], sep);
      assert s == [s[0]] + s[1..];
    }
  }

  // ---------------------------------------------------------------------------
  // order

  /** Code-point lexicographic order: `a` `localeCompare` `b` is not positive. */
  predicate LexLe(a: string, b: string)
  {
    a == [] || (b != [] && (a[0] < b[0] || (a[0] == b[0] && LexLe(a[1..], b[1..]))))
  }

  lemma {:induction false} LexLeTotal(a: string, b: string)
    ensures LexLe(a, b) || LexLe(b, a)
  {
    if a != [] && b != [] && a[0] == b[0] {
      LexLeTotal(a[1..], b[1..]);
    }
  }

  lemma {:induction false} LexLeTrans(a: string, b: string, c: string)
    requires LexLe(a, b) && LexLe(b, c)
    ensures LexLe(a, c)
  {
    if a != [] && a[0] == b[0] && b[0] == c[0] {
      LexLeTrans(a[1..], b[1..], c[1..]);
    }
  }
}
