/** Generic facts about strings built by concatenation, used by the query model. */
module Text {
  import opened Wrappers

  /** The parts joined by `sep`. */
  function Join(parts: seq<string>, sep: string): string {
    if |parts| == 0 then ""
    else if |parts| == 1 then parts[0]
    else parts[0] + sep + Join(parts[1..], sep)
  }

  /** Where the k-th part starts in `Join(parts, sep)`. */
  function Offset(parts: seq<string>, sep: string, k: nat): nat
    requires k < |parts|
  {
    if k == 0 then 0 else |parts[0]| + |sep| + Offset(parts[1..], sep, k - 1)
  }

  /** Past the first part and its separator, the joined text is the join of the rest. */
  lemma JoinTail(parts: seq<string>, sep: string)
    requires |parts| > 1
    ensures |parts[0]| + |sep| <= |Join(parts, sep)|
    ensures Join(parts, sep)[..|parts[0]|] == parts[0]
    ensures Join(parts, sep)[|parts[0]|..|parts[0]| + |sep|] == sep
    ensures Join(parts, sep)[|parts[0]| + |sep|..] == Join(parts[1..], sep)
  {
    var j := Join(parts, sep);
    assert j == parts[0] + sep + Join(parts[1..], sep);
  }

  /** A slice of a suffix is a slice of the whole, shifted. */
  lemma SliceOfSuffix(s: string, d: nat, lo: nat, hi: nat)
    requires d + hi <= |s| && lo <= hi
    ensures s[d..][lo..hi] == s[d + lo..d + hi]
  {
  }

  /** Every part appears, unchanged, at its offset in the joined text, and
      the last part ends the text. */
  lemma {:induction false} JoinAt(parts: seq<string>, sep: string, k: nat)
    requires k < |parts|
    ensures Offset(parts, sep, k) + |parts[k]| <= |Join(parts, sep)|
    ensures Join(parts, sep)[Offset(parts, sep, k)..Offset(parts, sep, k) + |parts[k]|] == parts[k]
    ensures k + 1 == |parts| ==> Offset(parts, sep, k) + |parts[k]| == |Join(parts, sep)|
  {
    if |parts| == 1 {
    } else {
      JoinTail(parts, sep);
      if k > 0 {
        var j, tail, rest := Join(parts, sep), parts[1..], Join(parts[1..], sep);
        var d, o, n := |parts[0]| + |sep|, Offset(tail, sep, k - 1), |parts[k]|;
        JoinAt(tail, sep, k - 1);
        assert tail[k - 1] == parts[k];
        assert Offset(parts, sep, k) == d + o;
        assert j[d..] == rest;
        assert rest[o..o + n] == parts[k];
        SliceOfSuffix(j, d, o, o + n);
      }
    }
  }

  /** The separator follows every part but the last, and the next part
      starts right after it. */
  lemma {:induction false} JoinSepAt(parts: seq<string>, sep: string, k: nat)
    requires k + 1 < |parts|
    ensures Offset(parts, sep, k + 1) == Offset(parts, sep, k) + |parts[k]| + |sep|
    ensures Offset(parts, sep, k + 1) <= |Join(parts, sep)|
    ensures Join(parts, sep)[Offset(parts, sep, k) + |parts[k]|..Offset(parts, sep, k + 1)] == sep
  {
    JoinTail(parts, sep);
    if k > 0 {
      var j, tail, rest := Join(parts, sep), parts[1..], Join(parts[1..], sep);
      var d, o, n := |parts[0]| + |sep|, Offset(tail, sep, k - 1), |parts[k]|;
      JoinSepAt(tail, sep, k - 1);
      assert tail[k - 1] == parts[k];
      assert Offset(parts, sep, k) == d + o;
      assert Offset(parts, sep, k + 1) == d + o + n + |sep|;
      assert j[d..] == rest;
      assert rest[o + n..o + n + |sep|] == sep;
      SliceOfSuffix(j, d, o + n, o + n + |sep|);
    }
  }

  /** A part framed by padding on both sides: the same facts as `JoinAt` and
      `JoinSepAt`, shifted by the padding, and the padding ends the text. */
  lemma PaddedJoinAt(pad: string, parts: seq<string>, sep: string, k: nat)
    requires k < |parts|
    ensures var q, o, n := pad + Join(parts, sep) + pad, |pad| + Offset(parts, sep, k), |parts[k]|;
      && o + n <= |q|
      && q[o..o + n] == parts[k]
      && (k + 1 < |parts| ==>
            |pad| + Offset(parts, sep, k + 1) == o + n + |sep|
            && o + n + |sep| <= |q|
            && q[o + n..o + n + |sep|] == sep)
      && (k + 1 == |parts| ==> q[o + n..] == pad)
  {
    var j := Join(parts, sep);
    var q, o, n := pad + j + pad, Offset(parts, sep, k), |parts[k]|;
    JoinAt(parts, sep, k);
    assert q[|pad|..|pad| + |j|] == j;
    SliceOfSuffix(q, |pad|, o, o + n);
    if k + 1 < |parts| {
      JoinSepAt(parts, sep, k);
      SliceOfSuffix(q, |pad|, o + n, o + n + |sep|);
      assert (j + pad)[o + n..o + n + |sep|] == j[o + n..o + n + |sep|];
    }
  }

  /** A string is its three pieces around two cut points. */
  lemma Cut3(s: string, lo: nat, hi: nat)
    requires lo <= hi <= |s|
    ensures s == s[..lo] + s[lo..hi] + s[hi..]
  {
  }

  /** Concatenation of five strings, regrouped. */
  lemma Assoc5(h: string, b: string, m: string, r: string, t: string)
    ensures h + (b + m + r) + t == h + b + m + r + t
  {
  }

  /** Each of five strings can be cut back out of their concatenation. */
  lemma SpliceAt(h: string, b: string, m: string, r: string, t: string)
    ensures var q := h + b + m + r + t;
      && q[..|h|] == h
      && q[|h|..|h| + |b|] == b
      && q[|h| + |b|..|h| + |b| + |m|] == m
      && q[|h| + |b| + |m|..|q| - |t|] == r
      && q[|q| - |t|..] == t
  {
  }

  /** The index of the first `c` in `s`, or `|s|` when there is none. */
  function FindChar(s: string, c: char): (i: nat)
    ensures i <= |s|
    ensures forall j :: 0 <= j < i ==> s[j] != c
    ensures i < |s| ==> s[i] == c
  {
    if |s| == 0 then 0
    else if s[0] == c then 0
    else 1 + FindChar(s[1..], c)
  }

  /** Reads back the two strings spliced into `head + _ + mid + _ + tail`:
      the first one ends at the first `stop`, where `mid` must begin. */
  function Unsplice(q: string, head: string, stop: char, mid: string, tail: string): Option<(string, string)>
  {
    if |q| < |head| + |tail| || q[..|head|] != head || q[|q| - |tail|..] != tail then None
    else
      var body := q[|head|..|q| - |tail|];
      var i := FindChar(body, stop);
      if i + |mid| <= |body| && body[i..i + |mid|] == mid
      then Some((body[..i], body[i + |mid|..]))
      else None
  }

  /** Splicing a first string free of `stop`, before a `mid` that begins
      with `stop`, reads back as what was spliced. */
  lemma UnspliceSplice(head: string, a: string, stop: char, mid: string, b: string, tail: string)
    requires stop !in a && |mid| > 0 && mid[0] == stop
    ensures Unsplice(head + a + mid + b + tail, head, stop, mid, tail) == Some((a, b))
  {
    var q := head + a + mid + b + tail;
    SpliceAt(head, a, mid, b, tail);
    var body := q[|head|..|q| - |tail|];
    SpliceAt([], a, mid, b, []);
    assert body == a + mid + b;
    var i := FindChar(body, stop);
    assert body[|a|] == stop;
    assert i == |a|;
    assert body[..i] == a;
    assert body[i..i + |mid|] == mid;
    assert body[i + |mid|..] == b;
  }

  /** What reads back, spliced again, gives the text it was read from; the
      first string read back has no `stop`. */
  lemma SpliceUnsplice(q: string, head: string, stop: char, mid: string, tail: string, a: string, b: string)
    requires Unsplice(q, head, stop, mid, tail) == Some((a, b))
    ensures stop !in a
    ensures head + a + mid + b + tail == q
  {
    var body := q[|head|..|q| - |tail|];
    var i := FindChar(body, stop);
    Cut3(body, i, i + |mid|);
    Cut3(q, |head|, |q| - |tail|);
    Assoc5(head, a, mid, b, tail);
    forall j | 0 <= j < |a| ensures a[j] != stop {
      assert a[j] == body[j];
    }
  }

  /** Without escaping, a copy of `mid` inside the first string is the same
      text as one inside the second. */
  lemma SpliceShift(head: string, a: string, mid: string, b: string, c: string, tail: string)
    ensures head + (a + mid + b) + mid + c + tail == head + a + mid + (b + mid + c) + tail
  {
  }
}
