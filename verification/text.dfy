/** String handling shared by the matcher, the gap analyser and the roadmap
    planner: Python's `str.lower()` and `str.strip()` (restricted to ASCII),
    `" ".join(...)` and the slice `xs[:k]`. */
module SkillText {

  // ---------------------------------------------------------------------
  // Lower case
  // ---------------------------------------------------------------------

  predicate IsUpperChar(c: char) {
    'A' <= c <= 'Z'
  }

  function LowerChar(c: char): (r: char)
    ensures !IsUpperChar(r)
    ensures !IsUpperChar(c) ==> r == c
    ensures IsUpperChar(c) ==> r as int == c as int + 32
  {
    if IsUpperChar(c) then (c as int + 32) as char else c
  }

  /** A string with no upper-case letter. */
  predicate IsLower(s: string) {
    forall i :: 0 <= i < |s| ==> !IsUpperChar(s[i])
  }

  /** `s.lower()`: every upper-case letter replaced by its lower-case
      counterpart, every other character kept in place. */
  function Lower(s: string): (r: string)
    ensures |r| == |s| && IsLower(r)
    ensures forall i :: 0 <= i < |s| && !IsUpperChar(s[i]) ==> r[i] == s[i]
    ensures forall i :: 0 <= i < |s| && IsUpperChar(s[i]) ==> r[i] as int == s[i] as int + 32
  {
    seq(|s|, i requires 0 <= i < |s| => LowerChar(s[i]))
  }

  /** Lower-casing a string that is already lower case changes nothing, so
      `Lower` is idempotent. */
  lemma LowerFixesLower(s: string)
    requires IsLower(s)
    ensures Lower(s) == s
  {
  }

  /** Lower-casing a list of lower-case strings changes nothing. */
  lemma LowerAllFixesLower(xs: seq<string>)
    requires forall i :: 0 <= i < |xs| ==> IsLower(xs[i])
    ensures LowerAll(xs) == xs
  {
    forall i | 0 <= i < |xs| ensures LowerAll(xs)[i] == xs[i] {
      LowerFixesLower(xs[i]);
    }
  }

  function LowerAll(xs: seq<string>): (r: seq<string>)
    ensures |r| == |xs|
    ensures forall i :: 0 <= i < |xs| ==> r[i] == Lower(xs[i])
  {
    seq(|xs|, i requires 0 <= i < |xs| => Lower(xs[i]))
  }

  // ---------------------------------------------------------------------
  // Strip
  // ---------------------------------------------------------------------

  /** The ASCII characters Python's `str.isspace()` accepts: tab, line feed,
      vertical tab, form feed, carriage return, the four separators 0x1C-0x1F
      and the blank. */
  predicate IsSpace(c: char) {
    var n := c as int;
    n == 32 || 9 <= n <= 13 || 28 <= n <= 31
  }

  /** No white space at either end. */
  predicate IsTrimmed(s: string) {
    s == [] || (!IsSpace(s[0]) && !IsSpace(s[|s| - 1]))
  }

  function StripStart(s: string): (r: string)
    ensures |r| <= |s| && r == s[|s| - |r|..]
    ensures forall i :: 0 <= i < |s| - |r| ==> IsSpace(s[i])
    ensures r == [] || !IsSpace(r[0])
  {
    if |s| > 0 && IsSpace(s[0]) then StripStart(s[1..]) else s
  }

  function StripEnd(s: string): (r: string)
    ensures |r| <= |s| && r == s[..|r|]
    ensures forall i :: |r| <= i < |s| ==> IsSpace(s[i])
    ensures r == [] || !IsSpace(r[|r| - 1])
  {
    if |s| > 0 && IsSpace(s[|s| - 1]) then StripEnd(s[..|s| - 1]) else s
  }

  /** The number of white-space characters `s` starts with. */
  function LeadingSpace(s: string): (n: nat)
    ensures n <= |s|
  {
    |s| - |StripStart(s)|
  }

  /** `s.strip()`: the longest slice of `s` that neither starts nor ends
      with white space, obtained by dropping white space only. */
  function Strip(s: string): (r: string)
    ensures IsTrimmed(r)
    ensures LeadingSpace(s) + |r| <= |s|
    ensures r == s[LeadingSpace(s)..LeadingSpace(s) + |r|]
    ensures forall i :: 0 <= i < LeadingSpace(s) ==> IsSpace(s[i])
    ensures forall i :: LeadingSpace(s) + |r| <= i < |s| ==> IsSpace(s[i])
  {
    var t := StripStart(s);
    var r := StripEnd(t);
    assert t == s[LeadingSpace(s)..];
    r
  }

  lemma {:induction false} StripStartTrimmed(s: string)
    requires s == [] || !IsSpace(s[0])
    ensures StripStart(s) == s
  {
  }

  lemma {:induction false} StripEndTrimmed(s: string)
    requires s == [] || !IsSpace(s[|s| - 1])
    ensures StripEnd(s) == s
  {
  }

  /** Stripping a string that is already trimmed changes nothing. */
  lemma StripFixesTrimmed(s: string)
    requires IsTrimmed(s)
    ensures Strip(s) == s
  {
    StripStartTrimmed(s);
    StripEndTrimmed(s);
  }

  // ---------------------------------------------------------------------
  // Normalisation of user skills: `skill.lower().strip()`
  // ---------------------------------------------------------------------

  predicate IsNormalized(s: string) {
    IsLower(s) && IsTrimmed(s)
  }

  lemma SliceOfLower(s: string, a: nat, b: nat)
    requires IsLower(s) && a <= b <= |s|
    ensures IsLower(s[a..b])
  {
    forall i | 0 <= i < b - a ensures !IsUpperChar(s[a..b][i]) {
      assert s[a..b][i] == s[a + i];
    }
  }

  /** `s.lower().strip()`. */
  function Normalize(s: string): (r: string)
    ensures IsNormalized(r)
  {
    var l := Lower(s);
    var r := Strip(l);
    SliceOfLower(l, LeadingSpace(l), LeadingSpace(l) + |r|);
    r
  }

  /** A normalised token is its own normal form, so normalising twice is the
      same as normalising once. */
  lemma NormalizeFixesNormalized(s: string)
    requires IsNormalized(s)
    ensures Normalize(s) == s
  {
    LowerFixesLower(s);
    StripFixesTrimmed(s);
  }

  lemma NormalizeIdempotent(s: string)
    ensures Normalize(Normalize(s)) == Normalize(s)
  {
    NormalizeFixesNormalized(Normalize(s));
  }

  /** Two characters that are equal or are the upper- and lower-case form
      of one letter. */
  predicate SameLetterIgnoringCase(a: char, b: char) {
    || a == b
    || (IsUpperChar(a) && b as int == a as int + 32)
    || (IsUpperChar(b) && a as int == b as int + 32)
  }

  /** Two tokens that differ only in letter case normalise to the same
      skill. */
  lemma NormalizeIgnoresCase(s: string, t: string)
    requires |s| == |t|
    requires forall i :: 0 <= i < |s| ==> SameLetterIgnoringCase(s[i], t[i])
    ensures Normalize(s) == Normalize(t)
  {
    assert Lower(s) == Lower(t);
  }

  function NormalizeAll(xs: seq<string>): (r: seq<string>)
    ensures |r| == |xs|
    ensures forall i :: 0 <= i < |xs| ==> r[i] == Normalize(xs[i])
  {
    seq(|xs|, i requires 0 <= i < |xs| => Normalize(xs[i]))
  }

  /** Normalising a list of normalised skills changes nothing. */
  lemma NormalizeAllFixesNormalized(xs: seq<string>)
    requires forall i :: 0 <= i < |xs| ==> IsNormalized(xs[i])
    ensures NormalizeAll(xs) == xs
  {
    forall i | 0 <= i < |xs| ensures NormalizeAll(xs)[i] == xs[i] {
      NormalizeFixesNormalized(xs[i]);
    }
  }

  /** The set of the elements of a list: Python's `set(xs)`. */
  function SetOf(xs: seq<string>): (r: set<string>)
    ensures forall x :: x in r <==> x in xs
  {
    set x | x in xs
  }

  /** No element occurs twice. */
  predicate NoDuplicates<T(==)>(xs: seq<T>) {
    forall i, j :: 0 <= i < j < |xs| ==> xs[i] != xs[j]
  }

  /** A list has no more distinct elements than entries, and exactly as
      many when no entry repeats. */
  lemma {:induction false} SetOfSize(xs: seq<string>)
    ensures |SetOf(xs)| <= |xs|
    ensures NoDuplicates(xs) ==> |SetOf(xs)| == |xs|
  {
    if xs != [] {
      var init, last := xs[..|xs| - 1], xs[|xs| - 1];
      assert xs == init + [last];
      assert SetOf(xs) == SetOf(init) + {last};
      SetOfSize(init);
      if NoDuplicates(xs) {
        assert NoDuplicates(init) by {
          forall i, j | 0 <= i < j < |init| ensures init[i] != init[j] {
            assert init[i] == xs[i] && init[j] == xs[j];
          }
        }
        assert last !in SetOf(init) by {
          forall i | 0 <= i < |init| ensures init[i] != last {
            assert init[i] == xs[i];
          }
        }
      }
    }
  }

  // ---------------------------------------------------------------------
  // Join and slices
  // ---------------------------------------------------------------------

  /** `sep.join(xs)`: the elements with one separator between each
      neighbouring pair, so the text opens with the first element. */
  function Join(sep: string, xs: seq<string>): (r: string)
    ensures |r| == TotalLength(xs) + (if xs == [] then 0 else (|xs| - 1) * |sep|)
    ensures xs != [] ==> r[..|xs[0]|] == xs[0]
  {
    if xs == [] then []
    else if |xs| == 1 then xs[0]
    else xs[0] + sep + Join(sep, xs[1..])
  }

  /** Appending an element to a non-empty list appends one separator and
      that element to the joined text, so every later element follows its
      own separator, in list order. */
  lemma {:induction false} JoinSnoc(sep: string, xs: seq<string>, x: string)
    requires xs != []
    ensures Join(sep, xs + [x]) == Join(sep, xs) + sep + x
    decreases |xs|
  {
    if |xs| == 1 {
      assert xs + [x] == [xs[0], x];
      assert [xs[0], x][1..] == [x];
    } else {
      assert (xs + [x])[1..] == xs[1..] + [x];
      JoinSnoc(sep, xs[1..], x);
    }
  }

  /** The summed lengths of the strings of a list. */
  function TotalLength(xs: seq<string>): nat {
    if xs == [] then 0 else |xs[0]| + TotalLength(xs[1..])
  }

  /** `xs[:n]` for a non-negative `n`: the first `n` elements, or all of
      them when there are fewer. */
  function Take<T>(xs: seq<T>, n: nat): (r: seq<T>)
    ensures |r| == if n <= |xs| then n else |xs|
    ensures r == xs[..|r|]
  {
    if n <= |xs| then xs[..n] else xs
  }

  /** The length of `xs[:k]` for a list of length `len` and any integer `k`
      (a negative `k` counts from the end). */
  function SliceLength(len: nat, k: int): (r: nat)
    ensures 0 <= k ==> r == if k <= len then k else len
    ensures k < 0 ==> r == if len + k >= 0 then len + k else 0
    ensures r <= len
  {
    if k >= 0 then (if k <= len then k else len)
    else if len + k >= 0 then len + k
    else 0
  }

  /** `xs[:k]` for any integer `k`. */
  function Slice<T>(xs: seq<T>, k: int): (r: seq<T>)
    ensures |r| == SliceLength(|xs|, k)
    ensures r == xs[..|r|]
    ensures 0 <= k ==> r == Take(xs, k)
    ensures -|xs| <= k < 0 ==> r + xs[|xs| + k..] == xs
    ensures k < -|xs| ==> r == []
  {
    xs[..SliceLength(|xs|, k)]
  }

  /** `xs[:k]` of a non-empty list is empty exactly for `k == 0` and for a
      negative `k` that counts back over the whole list. */
  lemma SliceEmptyExactly(len: nat, k: int)
    requires 0 < len
    ensures SliceLength(len, k) == 0 <==> k == 0 || k + len <= 0
  {
  }

  // ---------------------------------------------------------------------
  // Sequence facts, stated for any element type so that proofs about lists
  // of strings need not compare the strings themselves
  // ---------------------------------------------------------------------

  lemma PrefixSnoc<T>(s: seq<T>, n: nat)
    requires 0 < n <= |s|
    ensures s[..n] == s[..n - 1] + [s[n - 1]]
  {
  }

  lemma PrefixFull<T>(s: seq<T>)
    ensures s[..|s|] == s
  {
  }

  lemma AppendEmpty<T>(s: seq<T>)
    ensures s + [] == s && [] + s == s
  {
  }

  lemma TailOfAppend<T>(a: seq<T>, b: seq<T>)
    requires a != []
    ensures (a + b)[0] == a[0] && (a + b)[1..] == a[1..] + b
  {
  }

  lemma DropLastOfSnoc<T>(x: seq<T>, y: T)
    ensures (x + [y])[..|x|] == x && (x + [y])[|x|] == y
  {
  }

  lemma SingletonTail<T>(y: T)
    ensures [y][1..] == []
  {
  }

  /** Appending `y` to any one of three lists adds one `y` to the multiset of
      their concatenation. */
  lemma MultisetAppendOne<T>(f: seq<T>, m: seq<T>, a: seq<T>, y: T)
    ensures multiset((f + [y]) + m + a) == multiset(f + m + a) + multiset{y}
    ensures multiset(f + (m + [y]) + a) == multiset(f + m + a) + multiset{y}
    ensures multiset(f + m + (a + [y])) == multiset(f + m + a) + multiset{y}
  {
  }
}
