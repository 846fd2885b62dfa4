/**
 * Character classes and string operations the server borrows from Python:
 * the whitespace of `str.isspace()` (also what `\s` and `\S` mean in a `re`
 * pattern over `str`), `str.strip()` with no argument, and `sub in s`.
 */
module Text {

  /** Python's whitespace set (`Py_UNICODE_ISSPACE`). */
  predicate IsSpace(c: char) {
    var n := c as int;
    || 0x09 <= n <= 0x0D
    || 0x1C <= n <= 0x20
    || n == 0x85 || n == 0xA0 || n == 0x1680
    || 0x2000 <= n <= 0x200A
    || n == 0x2028 || n == 0x2029 || n == 0x202F || n == 0x205F || n == 0x3000
  }

  /** Every character of `s` is whitespace (so is the empty string). */
  predicate IsBlank(s: string) {
    forall i | 0 <= i < |s| :: IsSpace(s[i])
  }

  /** No character of `s` is whitespace. */
  predicate NoSpace(s: string) {
    forall i | 0 <= i < |s| :: !IsSpace(s[i])
  }

  /** The first `k` characters of `s` are whitespace. */
  predicate BlankBefore(s: string, k: nat)
    requires k <= |s|
  {
    forall i | 0 <= i < k :: IsSpace(s[i])
  }

  /** The characters of `s` from index `k` on are whitespace. */
  predicate BlankFrom(s: string, k: nat)
    requires k <= |s|
  {
    forall i | k <= i < |s| :: IsSpace(s[i])
  }

  /** `s.lstrip()`: drops the leading whitespace, keeps the rest. */
  function TrimStart(s: string): (r: string)
    ensures |r| <= |s| && r == s[|s| - |r|..]
    ensures BlankBefore(s, |s| - |r|)
    ensures r == [] || !IsSpace(r[0])
  {
    if |s| > 0 && IsSpace(s[0]) then TrimStart(s[1..]) else s
  }

  /** `s.rstrip()`: drops the trailing whitespace, keeps the rest. */
  function TrimEnd(s: string): (r: string)
    ensures |r| <= |s| && r == s[..|r|]
    ensures BlankFrom(s, |r|)
    ensures r == [] || !IsSpace(r[|r| - 1])
  {
    if |s| > 0 && IsSpace(s[|s| - 1]) then TrimEnd(s[..|s| - 1]) else s
  }

  /** `s.strip()`. */
  function Strip(s: string): (r: string)
    ensures |r| <= |s|
  {
    TrimEnd(TrimStart(s))
  }

  /** `strip` gives the empty string exactly when `s` is blank. */
  lemma {:induction false} StripEmptyIffBlank(s: string)
    ensures Strip(s) == [] <==> IsBlank(s)
  {
    var t := TrimStart(s);
    var lead := |s| - |t|;
    if t != [] {
      assert !IsSpace(t[0]) && t[0] == s[lead];
    } else {
      assert s[..lead] == s;
    }
  }

  /** `s` is `lead` whitespace characters, then `r`, then only whitespace. */
  predicate SplitsAround(s: string, lead: nat, r: string) {
    && lead + |r| <= |s|
    && s[lead..lead + |r|] == r
    && BlankBefore(s, lead)
    && BlankFrom(s, lead + |r|)
  }

  /**
   * What `strip` keeps: the piece of `s` that starts after the leading
   * whitespace, with only whitespace cut off before and after it.
   */
  lemma {:induction false} StripKeepsMiddle(s: string)
    ensures SplitsAround(s, |s| - |TrimStart(s)|, Strip(s))
  {
    var t := TrimStart(s);
    SuffixPrefixSlice(s, t, TrimEnd(t));
  }

  /**
   * Slicing helper: a prefix `r` of a suffix `t` of `s`, where `t` follows
   * only whitespace in `s` and only whitespace follows `r` in `t`, splits `s`
   * around `r`.
   */
  lemma {:induction false} SuffixPrefixSlice(s: string, t: string, r: string)
    requires |t| <= |s| && t == s[|s| - |t|..]
    requires BlankBefore(s, |s| - |t|)
    requires |r| <= |t| && r == t[..|r|]
    requires BlankFrom(t, |r|)
    ensures SplitsAround(s, |s| - |t|, r)
  {
    var lead := |s| - |t|;
    assert s[lead..lead + |r|] == r;
    forall i | lead + |r| <= i < |s|
      ensures IsSpace(s[i])
    {
      assert s[i] == t[i - lead];
    }
  }

  /** What `strip` keeps has whitespace on neither end. */
  lemma {:induction false} StripTrimsBothEnds(s: string)
    requires Strip(s) != []
    ensures !IsSpace(Strip(s)[0]) && !IsSpace(Strip(s)[|Strip(s)| - 1])
  {
    var t := TrimStart(s);
    var r := TrimEnd(t);
    assert r == t[..|r|];
    assert r[0] == t[0];
  }

  /** Python's `sub in s`. */
  predicate Contains(s: string, sub: string) {
    exists i | 0 <= i <= |s| - |sub| :: OccursAt(s, sub, i)
  }

  /** `sub` stands in `s` from index `i` on. */
  predicate OccursAt(s: string, sub: string, i: nat)
    requires i + |sub| <= |s|
  {
    s[i..i + |sub|] == sub
  }

  /** A string contains whatever stands at its end. */
  lemma ContainsSuffix(prefix: string, sub: string)
    ensures Contains(prefix + sub, sub)
  {
    var s := prefix + sub;
    assert s[|prefix|..|prefix| + |sub|] == sub;
    assert OccursAt(s, sub, |prefix|);
  }

  /** Appending never removes an occurrence. */
  lemma ContainsExtend(s: string, sub: string, tail: string)
    requires Contains(s, sub)
    ensures Contains(s + tail, sub)
  {
    var i :| 0 <= i <= |s| - |sub| && OccursAt(s, sub, i);
    assert (s + tail)[i..i + |sub|] == s[i..i + |sub|];
    assert OccursAt(s + tail, sub, i);
  }
}
