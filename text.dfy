/** The Python string and list operations the pipeline is built from: `str.strip()`, the
    slice `s[:n]`, `sep.join(parts)` and repeated `list.extend`. */
module Text {

  /** The three characters the source text holds wherever an en dash (U+2013) is evidently
      meant: the dash's UTF-8 bytes read as Windows-1252 text. */
  const Dash: string := "\U{E2}\U{20AC}\U{201C}"

  function Min(a: int, b: int): int { if a <= b then a else b }

  function Max(a: int, b: int): int { if a <= b then b else a }

  /** Python's `str.isspace` for a single character. */
  predicate IsSpace(c: char) {
    || c == ' '
    || '\t' <= c <= '\r'
    || '\U{1C}' <= c <= '\U{1F}'
    || c == '\U{85}' || c == '\U{A0}' || c == '\U{1680}'
    || '\U{2000}' <= c <= '\U{200A}'
    || c == '\U{2028}' || c == '\U{2029}' || c == '\U{202F}' || c == '\U{205F}' || c == '\U{3000}'
  }

  predicate AllSpace(s: string) {
    forall i :: 0 <= i < |s| ==> IsSpace(s[i])
  }

  /** `s` is empty or neither starts nor ends with whitespace. */
  predicate Trimmed(s: string) {
    s == "" || (!IsSpace(s[0]) && !IsSpace(s[|s| - 1]))
  }

  /** The number of whitespace characters `s` starts with. */
  function LeadLen(s: string): (n: nat)
    ensures n <= |s|
    ensures forall i :: 0 <= i < n ==> IsSpace(s[i])
    ensures n < |s| ==> !IsSpace(s[n])
  {
    if |s| > 0 && IsSpace(s[0]) then 1 + LeadLen(s[1..]) else 0
  }

  /** The number of whitespace characters `s` ends with. */
  function TrailLen(s: string): (n: nat)
    ensures n <= |s|
    ensures forall i :: |s| - n <= i < |s| ==> IsSpace(s[i])
    ensures n < |s| ==> !IsSpace(s[|s| - n - 1])
  {
    if |s| > 0 && IsSpace(s[|s| - 1]) then 1 + TrailLen(s[..|s| - 1]) else 0
  }

  /** Python's `str.strip()`: `s` is whitespace, then the result, then whitespace, and the
      result neither starts nor ends with whitespace. */
  function Strip(s: string): (r: string)
    ensures LeadLen(s) + |r| <= |s|
    ensures r == s[LeadLen(s)..LeadLen(s) + |r|]
    ensures AllSpace(s[LeadLen(s) + |r|..])
    ensures Trimmed(r)
  {
    var i := LeadLen(s);
    if i == |s| then ""
    else
      s[i..|s| - TrailLen(s)]
  }

  /** Stripping whitespace around a trimmed string gives back that string: together with
      the contract of `Strip`, this pins `Strip` down completely. */
  lemma {:induction false} StripExact(pre: string, core: string, post: string)
    requires AllSpace(pre) && AllSpace(post) && Trimmed(core)
    ensures Strip(pre + core + post) == core
  {
    var s := pre + core + post;
    var n := LeadLen(s);
    var r := Strip(s);
    if core == "" {
      assert s == pre + post;
    } else {
      assert s[|pre|] == core[0];
      assert s[|pre| + |core| - 1] == core[|core| - 1];
      assert s[|pre|..|pre| + |core|] == core;
    }
  }

  /** Stripping twice is stripping once. */
  lemma StripIdempotent(s: string)
    ensures Strip(Strip(s)) == Strip(s)
  {
    StripExact("", Strip(s), "");
    assert "" + Strip(s) + "" == Strip(s);
  }

  /** Python's slice `s[:n]` for every integer `n`: a prefix of `s`, of length `n` capped at
      `|s|`; a negative `n` drops `-n` elements from the end. */
  function SliceTo<T>(s: seq<T>, n: int): (r: seq<T>)
    ensures r <= s
    ensures 0 <= n <= |s| ==> |r| == n
    ensures n >= |s| ==> r == s
    ensures n < 0 ==> |r| == Max(0, |s| + n)
  {
    if n >= 0 then s[..Min(n, |s|)] else s[..Max(0, |s| + n)]
  }

  /** `x` occurs in `s` starting at index `i`. */
  predicate OccursAt<T(==)>(x: seq<T>, s: seq<T>, i: int) {
    0 <= i && i + |x| <= |s| && s[i..i + |x|] == x
  }

  /** `x` occurs somewhere in `s`. */
  predicate Contains<T(==)>(s: seq<T>, x: seq<T>) {
    exists i :: 0 <= i <= |s| && OccursAt(x, s, i)
  }

  lemma OccursAtShift<T>(x: seq<T>, u: seq<T>, t: seq<T>, v: seq<T>, i: int)
    requires OccursAt(x, t, i)
    ensures OccursAt(x, u + t + v, |u| + i)
  {
    assert (u + t + v)[|u| + i..|u| + i + |x|] == t[i..i + |x|];
  }

  /** The second and third of four concatenated pieces occur where the earlier ones end. */
  lemma OccursInFour<T>(a: seq<T>, b: seq<T>, c: seq<T>, d: seq<T>)
    ensures OccursAt(b, a + b + c + d, |a|)
    ensures OccursAt(c, a + b + c + d, |a| + |b|)
  {
    var s := a + b + c + d;
    assert s[|a|..|a| + |b|] == b;
    assert s[|a| + |b|..|a| + |b| + |c|] == c;
  }

  /** The middle one of three concatenated pieces occurs where the first ends. */
  lemma OccursInThree<T>(a: seq<T>, b: seq<T>, c: seq<T>)
    ensures OccursAt(b, a + b + c, |a|)
  {
    assert (a + b + c)[|a|..|a| + |b|] == b;
  }

  lemma OccursAtTrans<T>(x: seq<T>, y: seq<T>, s: seq<T>, i: int, j: int)
    requires OccursAt(x, y, i) && OccursAt(y, s, j)
    ensures OccursAt(x, s, j + i)
  {
    forall t | 0 <= t < |x| ensures s[j + i + t] == x[t] {
      assert x[t] == y[i + t] == s[j + i + t];
    }
    assert s[j + i..j + i + |x|] == x;
  }

  /** A text occurring in a text that occurs in `s` occurs in `s`. */
  lemma ContainsWithin<T>(x: seq<T>, y: seq<T>, s: seq<T>, i: int, j: int)
    requires OccursAt(x, y, i) && OccursAt(y, s, j)
    ensures Contains(s, x)
  {
    OccursAtTrans(x, y, s, i, j);
  }

  /** Python's `sep.join(parts)`. */
  function Join(sep: string, parts: seq<string>): string {
    if |parts| == 0 then ""
    else if |parts| == 1 then parts[0]
    else parts[0] + sep + Join(sep, parts[1..])
  }

  /** The index at which part `k` starts in `Join(sep, parts)`: every earlier part and the
      separator after it come first. */
  function Offset(sep: string, parts: seq<string>, k: nat): nat
    requires k <= |parts|
  {
    if k == 0 then 0 else |parts[0]| + |sep| + Offset(sep, parts[1..], k - 1)
  }

  lemma {:induction false} OffsetStep(sep: string, parts: seq<string>, k: nat)
    requires k < |parts|
    ensures Offset(sep, parts, k + 1) == Offset(sep, parts, k) + |parts[k]| + |sep|
  {
    if k > 0 {
      OffsetStep(sep, parts[1..], k - 1);
    }
  }

  /** `Join(sep, parts)` holds every part, in order, at its `Offset`; each part but the last
      is followed by exactly one `sep`, and the last part ends the string. */
  lemma {:induction false} JoinAt(sep: string, parts: seq<string>, k: nat)
    requires k < |parts|
    ensures OccursAt(parts[k], Join(sep, parts), Offset(sep, parts, k))
    ensures k + 1 < |parts| ==> OccursAt(sep, Join(sep, parts), Offset(sep, parts, k) + |parts[k]|)
    ensures k + 1 == |parts| ==> |Join(sep, parts)| == Offset(sep, parts, k) + |parts[k]|
  {
    var j := Join(sep, parts);
    if |parts| == 1 {
      assert j[0..|parts[0]|] == parts[0];
    } else if k == 0 {
      assert j[0..|parts[0]|] == parts[0];
      assert j[|parts[0]|..|parts[0]| + |sep|] == sep;
    } else {
      var rest := Join(sep, parts[1..]);
      assert j == parts[0] + sep + rest;
      JoinAt(sep, parts[1..], k - 1);
      var o := Offset(sep, parts[1..], k - 1);
      OccursAtShift(parts[k], parts[0] + sep, rest, [], o);
      assert parts[0] + sep + rest + [] == j;
      if k + 1 < |parts| {
        OccursAtShift(sep, parts[0] + sep, rest, [], o + |parts[k]|);
      }
    }
  }

  /** `JoinAt` for a joined text placed between `pre` and `post`. */
  lemma {:induction false} JoinFramedAt(pre: string, sep: string, parts: seq<string>, post: string, k: nat)
    requires k < |parts|
    ensures var s := pre + Join(sep, parts) + post;
      var at := |pre| + Offset(sep, parts, k);
      && OccursAt(parts[k], s, at)
      && (k + 1 < |parts| ==> OccursAt(sep, s, at + |parts[k]|))
      && (k + 1 == |parts| ==> s[at + |parts[k]|..] == post)
  {
    var body := Join(sep, parts);
    var o := Offset(sep, parts, k);
    JoinAt(sep, parts, k);
    OccursAtShift(parts[k], pre, body, post, o);
    if k + 1 < |parts| {
      OccursAtShift(sep, pre, body, post, o + |parts[k]|);
    } else {
      assert (pre + body + post)[|pre| + |body|..] == post;
    }
  }

  /** Python's repeated `result.extend(xs)` over a list of lists, from an empty list. */
  function Flatten<T>(xss: seq<seq<T>>): seq<T> {
    if xss == [] then [] else xss[0] + Flatten(xss[1..])
  }

  /** The total number of elements of a list of lists. */
  function SumLengths<T>(xss: seq<seq<T>>): nat {
    if xss == [] then 0 else |xss[0]| + SumLengths(xss[1..])
  }

  lemma {:induction false} FlattenAppend<T>(a: seq<seq<T>>, b: seq<seq<T>>)
    ensures Flatten(a + b) == Flatten(a) + Flatten(b)
  {
    if a != [] {
      assert (a + b)[1..] == a[1..] + b;
      FlattenAppend(a[1..], b);
    } else {
      assert a + b == b;
    }
  }

  lemma {:induction false} FlattenLength<T>(xss: seq<seq<T>>)
    ensures |Flatten(xss)| == SumLengths(xss)
  {
    if xss != [] {
      FlattenLength(xss[1..]);
    }
  }

  /** The flattened list is the lists before `k`, then list `k`, then the lists after it. */
  lemma {:induction false} FlattenSplit<T>(xss: seq<seq<T>>, k: nat)
    requires k < |xss|
    ensures Flatten(xss) == Flatten(xss[..k]) + xss[k] + Flatten(xss[k + 1..])
  {
    var front, back := xss[..k], xss[k + 1..];
    assert xss == front + ([xss[k]] + back);
    FlattenAppend(front, [xss[k]] + back);
    assert ([xss[k]] + back)[1..] == back;
    assert Flatten([xss[k]] + back) == xss[k] + Flatten(back);
  }

  /** The flattened list is empty exactly when every list is. */
  lemma {:induction false} FlattenEmpty<T>(xss: seq<seq<T>>)
    ensures Flatten(xss) == [] <==> forall i :: 0 <= i < |xss| ==> xss[i] == []
  {
    if xss != [] {
      FlattenEmpty(xss[1..]);
      if Flatten(xss) == [] {
        forall i | 0 <= i < |xss| ensures xss[i] == [] {
          if i > 0 { assert xss[i] == xss[1..][i - 1]; }
        }
      }
    }
  }
}
