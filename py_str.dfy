/**
 * The handful of Python `str` built-ins that the input classifier relies on,
 * stated over Dafny strings (`seq<char>`): `isspace`, `replace("\n", " ")`,
 * `strip()`, `rstrip(c)`, `startswith`, `endswith` and `split(sep)[-1]`.
 * Both copies of the classifier call them the same way, so they are defined once.
 */
module PyStr {

  /** `c.isspace()` in Python 3: the ASCII separators and the Unicode white space
      characters (categories Zs, and bidirectional classes WS, B and S). */
  predicate IsSpace(c: char)
  {
    var n := c as int;
    n == 0x20 || 0x09 <= n <= 0x0D || 0x1C <= n <= 0x1F || n == 0x85 || n == 0xA0
    || n == 0x1680 || 0x2000 <= n <= 0x200A || n == 0x2028 || n == 0x2029
    || n == 0x202F || n == 0x205F || n == 0x3000
  }

  /** No white space at either end: what `strip()` leaves behind. */
  predicate IsTrimmed(s: string)
  {
    s != [] ==> !IsSpace(s[0]) && !IsSpace(s[|s| - 1])
  }

  /** `s.startswith(prefix)` */
  predicate StartsWith(s: string, prefix: string)
  {
    |prefix| <= |s| && s[..|prefix|] == prefix
  }

  /** `sub` occurs in `s` starting at index `i`. */
  predicate OccursAt(s: string, sub: string, i: nat)
  {
    i + |sub| <= |s| && s[i..i + |sub|] == sub
  }

  /** `sub in s` */
  predicate Contains(s: string, sub: string)
  {
    exists i: nat :: i <= |s| && OccursAt(s, sub, i)
  }

  /** `s.endswith(c)` for a one-character suffix. */
  predicate EndsWith(s: string, c: char)
  {
    s != [] && s[|s| - 1] == c
  }

  /** `s.replace("\n", " ")`: every line feed becomes a space, nothing else moves. */
  function ReplaceNewlines(s: string): (r: string)
    ensures |r| == |s|
    ensures '\n' !in r
    ensures forall i :: 0 <= i < |s| && s[i] != '\n' ==> r[i] == s[i]
    ensures forall i :: 0 <= i < |s| && s[i] == '\n' ==> r[i] == ' '
  {
    if s == [] then []
    else [if s[0] == '\n' then ' ' else s[0]] + ReplaceNewlines(s[1..])
  }

  /** `s.lstrip()`: the suffix left after dropping the leading white space. */
  function LStrip(s: string): (r: string)
    ensures |r| <= |s| && r == s[|s| - |r|..]
    ensures forall i :: 0 <= i < |s| - |r| ==> IsSpace(s[i])
    ensures r != [] ==> !IsSpace(r[0])
  {
    if s != [] && IsSpace(s[0]) then LStrip(s[1..]) else s
  }

  /** `s.rstrip()`: the prefix left after dropping the trailing white space. */
  function RStrip(s: string): (r: string)
    ensures |r| <= |s| && r == s[..|r|]
    ensures forall i :: |r| <= i < |s| ==> IsSpace(s[i])
    ensures r != [] ==> !IsSpace(r[|r| - 1])
  {
    if s != [] && IsSpace(s[|s| - 1]) then RStrip(s[..|s| - 1]) else s
  }

  /** `r` is the slice of `s` starting at `i` with only white space around it. */
  predicate IsCoreAt(r: string, s: string, i: nat)
  {
    && i + |r| <= |s| && r == s[i..i + |r|]
    && (forall k :: 0 <= k < i ==> IsSpace(s[k]))
    && (forall k :: i + |r| <= k < |s| ==> IsSpace(s[k]))
  }

  /** `s.strip()`: the text of `s` with its surrounding white space, and only
      that, removed. */
  function Strip(s: string): (r: string)
    ensures IsTrimmed(r)
    ensures exists i: nat :: IsCoreAt(r, s, i)
  {
    var l := LStrip(s);
    var r := RStrip(l);
    assert r != [] ==> r[0] == l[0];
    var i := |s| - |l|;
    assert s[i..i + |r|] == l[..|r|];
    assert IsCoreAt(r, s, i);
    r
  }

  /** A trimmed core is unique: `strip()` can give no other answer. */
  lemma {:induction false} CoreIsUnique(r1: string, r2: string, s: string, i1: nat, i2: nat)
    requires IsTrimmed(r1) && IsCoreAt(r1, s, i1)
    requires IsTrimmed(r2) && IsCoreAt(r2, s, i2)
    ensures r1 == r2
  {
    assert r1 != [] ==> s[i1] == r1[0];
    assert r2 != [] ==> s[i2] == r2[0];
    if r1 != [] && r2 != [] {
      assert i1 == i2;
      assert s[i1 + |r1| - 1] == r1[|r1| - 1] && s[i2 + |r2| - 1] == r2[|r2| - 1];
      assert |r1| == |r2|;
    }
  }

  /** `s.rstrip(c)`: drops EVERY trailing occurrence of `c`, not just one. */
  function RStripChar(s: string, c: char): (r: string)
    ensures |r| <= |s| && r == s[..|r|]
    ensures forall i :: |r| <= i < |s| ==> s[i] == c
    ensures !EndsWith(r, c)
  {
    if s != [] && s[|s| - 1] == c then RStripChar(s[..|s| - 1], c) else s
  }

  /** `r` is the piece of `s` after its last `sep` (all of `s` when it holds no `sep`). */
  predicate IsLastFragment(r: string, s: string, sep: char)
  {
    && |r| <= |s| && r == s[|s| - |r|..]
    && sep !in r
    && (|r| < |s| ==> s[|s| - |r| - 1] == sep)
  }

  /** `s.split(sep)[-1]`, which is also `s.rsplit(sep, maxsplit=1)[-1]`. */
  function AfterLast(s: string, sep: char): string
  {
    if s == [] then []
    else if s[|s| - 1] == sep then []
    else AfterLast(s[..|s| - 1], sep) + [s[|s| - 1]]
  }

  /** What `split(sep)[-1]` leaves is the piece after the last separator. */
  lemma {:induction false} AfterLastIsLastFragment(s: string, sep: char)
    ensures IsLastFragment(AfterLast(s, sep), s, sep)
  {
    if s != [] && s[|s| - 1] != sep {
      var init := s[..|s| - 1];
      AfterLastIsLastFragment(init, sep);
      var r := AfterLast(s, sep);
      assert init[|s| - |r|..] + [s[|s| - 1]] == s[|s| - |r|..];
    }
  }

  /** A string with no separator is its own last fragment. */
  lemma AfterLastOfPlain(s: string, sep: char)
    requires sep !in s
    ensures AfterLast(s, sep) == s
  {
    AfterLastIsLastFragment(s, sep);
  }

  /** `s.replace("\n", " ").strip()`, the text cleaning both copies apply: the
      text with its line feeds read as spaces and its surrounding white space
      removed. */
  function Clean(s: string): (r: string)
    ensures '\n' !in r
    ensures IsTrimmed(r)
    ensures exists i: nat :: IsCoreAt(r, ReplaceNewlines(s), i)
  {
    var t := ReplaceNewlines(s);
    var r := Strip(t);
    assert forall c :: c in r ==> c in t;
    r
  }

  /** Text that is already clean is left alone. */
  lemma {:induction false} CleanFixpoint(s: string)
    requires '\n' !in s && IsTrimmed(s)
    ensures Clean(s) == s
  {
    ReplaceNewlinesFixpoint(s);
    assert LStrip(s) == s;
    assert RStrip(s) == s;
  }

  lemma {:induction false} ReplaceNewlinesFixpoint(s: string)
    requires '\n' !in s
    ensures ReplaceNewlines(s) == s
  {
    var r := ReplaceNewlines(s);
    assert forall i :: 0 <= i < |s| ==> r[i] == s[i];
  }

  /** Cleaning twice is cleaning once. */
  lemma CleanIdempotent(s: string)
    ensures Clean(Clean(s)) == Clean(s)
  {
    CleanFixpoint(Clean(s));
  }
}
