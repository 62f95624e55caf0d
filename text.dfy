/** The JavaScript string operations the core relies on, over `seq<char>`. */
module Text {
  import opened Wrappers

  /** `pat` occurs in `s` starting at index `i`. */
  predicate Occurs(s: string, pat: string, i: int) {
    0 <= i && i + |pat| <= |s| && s[i..i + |pat|] == pat
  }

  /** First occurrence of `pat` in `s` at or after `from` (`String.prototype.indexOf`). */
  function IndexOfFrom(s: string, pat: string, from: nat): (r: Option<nat>)
    ensures r.Some? ==> from <= r.value && Occurs(s, pat, r.value)
    ensures r.Some? ==> forall j :: from <= j < r.value ==> !Occurs(s, pat, j)
    ensures r.None? ==> forall j :: from <= j ==> !Occurs(s, pat, j)
    decreases |s| - from
  {
    if from + |pat| > |s| then None
    else if s[from..from + |pat|] == pat then Some(from)
    else IndexOfFrom(s, pat, from + 1)
  }

  function IndexOf(s: string, pat: string): (r: Option<nat>)
    ensures r.Some? ==> Occurs(s, pat, r.value) && forall j :: 0 <= j < r.value ==> !Occurs(s, pat, j)
    ensures r.None? ==> forall j :: !Occurs(s, pat, j)
  {
    IndexOfFrom(s, pat, 0)
  }

  /** `String.prototype.includes`. */
  function Contains(s: string, pat: string): (b: bool)
    ensures b <==> exists i :: Occurs(s, pat, i)
  {
    IndexOf(s, pat).Some?
  }

  /**
   * `s.replace(pat, rep)` with a string pattern: only the first occurrence is
   * replaced; without an occurrence the string is returned as it is.
   */
  function ReplaceFirst(s: string, pat: string, rep: string): (r: string)
    ensures IndexOf(s, pat).None? ==> r == s
    ensures IndexOf(s, pat).Some? ==>
      var i := IndexOf(s, pat).value;
      r == s[..i] + rep + s[i + |pat|..]
  {
    match IndexOf(s, pat)
    case None => s
    case Some(i) => s[..i] + rep + s[i + |pat|..]
  }

  /** `s.split(c)` for a one-character separator: the pieces between separators, in order. */
  function Split(s: string, c: char): (parts: seq<string>)
    ensures |parts| >= 1
    ensures c !in s ==> parts == [s]
    decreases |s|
  {
    match IndexOf(s, [c])
    case None =>
      assert forall k | 0 <= k < |s| :: s[k] != c by {
        forall k | 0 <= k < |s| ensures s[k] != c {
          assert !Occurs(s, [c], k);
          assert s[k..k + 1] == [s[k]];
        }
      }
      [s]
    case Some(i) =>
      assert s[i..i + 1] == [s[i]];
      [s[..i]] + Split(s[i + 1..], c)
  }

  /** `parts.join(c)`: the pieces with one separator between each two. */
  function JoinWith(parts: seq<string>, c: char): string
    requires |parts| >= 1
    decreases |parts|
  {
    if |parts| == 1 then parts[0] else parts[0] + [c] + JoinWith(parts[1..], c)
  }

  /** No occurrence of `[c]` before `i` means the prefix holds no `c`. */
  lemma SeparatorFree(s: string, c: char, i: nat)
    requires i <= |s|
    requires forall j :: 0 <= j < i ==> !Occurs(s, [c], j)
    ensures c !in s[..i]
  {
    forall k | 0 <= k < i ensures s[..i][k] != c {
      assert !Occurs(s, [c], k);
      assert s[k..k + 1] == [s[k]];
    }
  }

  /** One step of `split`: the piece before the first separator, then the split of the rest. */
  lemma SplitStep(s: string, c: char, i: nat)
    requires IndexOf(s, [c]) == Some(i)
    ensures s == s[..i] + [c] + s[i + 1..]
    ensures Split(s, c) == [s[..i]] + Split(s[i + 1..], c)
    ensures JoinWith(Split(s, c), c) == s[..i] + [c] + JoinWith(Split(s[i + 1..], c), c)
  {
    assert s[i..i + 1] == [c];
    var parts := Split(s, c);
    assert parts[1..] == Split(s[i + 1..], c);
  }

  /** Joining the pieces of a split with the separator gives the text back. */
  lemma {:induction false} JoinSplit(s: string, c: char)
    ensures JoinWith(Split(s, c), c) == s
    decreases |s|
  {
    match IndexOf(s, [c])
    case None =>
      SeparatorFree(s, c, |s|);
      assert s[..|s|] == s;
    case Some(i) =>
      JoinSplit(s[i + 1..], c);
      SplitStep(s, c, i);
  }

  /** No piece of a split holds the separator. */
  lemma {:induction false} SplitPiecesFree(s: string, c: char)
    ensures forall k :: 0 <= k < |Split(s, c)| ==> c !in Split(s, c)[k]
    decreases |s|
  {
    match IndexOf(s, [c])
    case None =>
      SeparatorFree(s, c, |s|);
      assert s[..|s|] == s;
    case Some(i) =>
      var rest := s[i + 1..];
      SplitPiecesFree(rest, c);
      SeparatorFree(s, c, i);
      var parts := Split(s, c);
      forall k | 0 <= k < |parts| ensures c !in parts[k] {
        if k > 0 {
          assert parts[k] == Split(rest, c)[k - 1];
        }
      }
  }

  lemma SplitJoin(a: string, c: char, b: string)
    requires c !in a && c !in b
    ensures Split(a + [c] + b, c) == [a, b]
  {
    var s := a + [c] + b;
    assert Occurs(s, [c], |a|) by { assert s[|a|..|a| + 1] == [c]; }
    forall j | 0 <= j < |a| ensures !Occurs(s, [c], j) {
      assert s[j] == a[j];
      assert s[j..j + 1] == [s[j]];
    }
    assert IndexOf(s, [c]) == Some(|a|);
    assert s[..|a|] == a;
    assert s[|a| + 1..] == b;
  }

  function DigitChar(d: int): char
    requires 0 <= d < 10
  {
    "0123456789"[d]
  }

  /** Decimal digits of a natural number, most significant first. */
  function NatText(n: nat): (r: string)
    ensures |r| >= 1
    ensures forall k :: 0 <= k < |r| ==> '0' <= r[k] <= '9'
    decreases n
  {
    if n < 10 then [DigitChar(n)] else NatText(n / 10) + [DigitChar(n % 10)]
  }

  /** `String(n)` for an integer-valued number. */
  function IntText(n: int): (r: string)
    ensures n >= 0 ==> r == NatText(n)
    ensures n < 0 ==> r == "-" + NatText(-n)
  {
    if n >= 0 then NatText(n) else "-" + NatText(-n)
  }
}
