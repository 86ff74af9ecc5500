/**
 * Values and string helpers shared by the three scheduler functions
 * (compute, gke and sql): optional values, results with an error message,
 * JavaScript's `Array.prototype.join` and `concat`, and the
 * `split("/").pop()` idiom used to turn a zone URL into a zone name.
 */
module Common {

  /** A JavaScript value that may be absent (`undefined` or `null`). */
  datatype Option<T> = None | Some(value: T)

  /** The outcome of a step that may throw; the error carries the message. */
  datatype Result<T> = Ok(value: T) | Err(error: string)

  /**
   * A label object `{ key: value, ... }` as the sequence that
   * `Object.entries` yields, in that order.
   */
  type Entries = seq<(string, string)>

  /** The message thrown by reading `.length` of an absent list field. */
  const MissingLength: string := "TypeError: Cannot read properties of undefined (reading 'length')"

  /** `parts.join(sep)`. */
  function Join(parts: seq<string>, sep: string): (r: string)
  {
    if |parts| == 0 then ""
    else if |parts| == 1 then parts[0]
    else parts[0] + sep + Join(parts[1..], sep)
  }

  /** The sum of the lengths of the given sequences. */
  function TotalLength<T>(ls: seq<seq<T>>): (r: nat)
  {
    if ls == [] then 0 else |ls[0]| + TotalLength(ls[1..])
  }

  /** Joining n parts inserts exactly n - 1 separators and nothing else. */
  lemma {:induction false} JoinLength(parts: seq<string>, sep: string)
    requires |parts| > 0
    ensures |Join(parts, sep)| == TotalLength(parts) + (|parts| - 1) * |sep|
  {
    if |parts| > 1 {
      JoinLength(parts[1..], sep);
    }
  }

  /** Pushing one more part adds one separator followed by that part. */
  lemma {:induction false} JoinSnoc(parts: seq<string>, x: string, sep: string)
    requires |parts| > 0
    ensures Join(parts + [x], sep) == Join(parts, sep) + sep + x
  {
    if |parts| == 1 {
      assert (parts + [x])[1..] == [x];
    } else {
      assert (parts + [x])[1..] == parts[1..] + [x];
      JoinSnoc(parts[1..], x, sep);
    }
  }

  /** The first part always opens the joined string. */
  lemma {:induction false} JoinStartsWithFirst(parts: seq<string>, sep: string)
    requires |parts| > 0
    ensures |parts[0]| <= |Join(parts, sep)|
    ensures Join(parts, sep)[..|parts[0]|] == parts[0]
  {
    if |parts| > 1 {
      var j := Join(parts, sep);
      assert j == parts[0] + (sep + Join(parts[1..], sep));
    }
  }

  /**
   * `s.split("/").pop()`: the text after the last `/` of `s`, or all of
   * `s` when it has no `/`.
   */
  function LastSegment(s: string): (r: string)
  {
    if s == [] then []
    else if s[|s| - 1] == '/' then []
    else LastSegment(s[..|s| - 1]) + [s[|s| - 1]]
  }

  /**
   * The last segment has no `/`, is a suffix of `s`, and is either all of
   * `s` or preceded by a `/`.
   */
  lemma {:induction false} LastSegmentIsSuffix(s: string)
    ensures '/' !in LastSegment(s)
    ensures |LastSegment(s)| <= |s| && s[|s| - |LastSegment(s)|..] == LastSegment(s)
    ensures |LastSegment(s)| == |s| || s[|s| - |LastSegment(s)| - 1] == '/'
  {
    if s != [] && s[|s| - 1] != '/' {
      var init := s[..|s| - 1];
      LastSegmentIsSuffix(init);
      var r := LastSegment(init);
      assert LastSegment(s) == r + [s[|s| - 1]];
      assert s == init + [s[|s| - 1]];
    }
  }

  /**
   * A zone URL such as `.../projects/p/zones/us-central1-a` yields its
   * final segment, whatever the prefix holds.
   */
  lemma LastSegmentOfPath(prefix: string, seg: string)
    requires '/' !in seg
    ensures LastSegment(prefix + "/" + seg) == seg
  {
    var s := prefix + "/" + seg;
    LastSegmentIsSuffix(s);
    assert s[|s| - |seg| - 1] == '/';
    assert s[|s| - |seg|..] == seg;
  }

  /** A name without `/` is its own last segment. */
  lemma LastSegmentOfName(seg: string)
    requires '/' !in seg
    ensures LastSegment(seg) == seg
  {
    LastSegmentIsSuffix(seg);
  }

  /** Appending a trace segment by segment is appending it at once. */
  lemma AppendAssoc<T>(a: seq<T>, b: seq<T>, c: seq<T>, d: seq<T>)
    ensures a + b + c + d == a + (b + c + d)
  {
  }

  /** `ls[0].concat(ls[1], ...)`: the lists one after the other. */
  function Concat<T>(ls: seq<seq<T>>): (r: seq<T>)
  {
    if ls == [] then [] else ls[0] + Concat(ls[1..])
  }

  /** A concatenation is as long as its pieces together. */
  lemma {:induction false} ConcatLength<T>(ls: seq<seq<T>>)
    ensures |Concat(ls)| == TotalLength(ls)
  {
    if ls != [] {
      ConcatLength(ls[1..]);
    }
  }

  /** `acc = acc.concat(l)` extends the concatenation by `l`. */
  lemma {:induction false} ConcatSnoc<T>(ls: seq<seq<T>>, l: seq<T>)
    ensures Concat(ls + [l]) == Concat(ls) + l
  {
    if ls == [] {
      assert [l][1..] == [];
    } else {
      assert (ls + [l])[1..] == ls[1..] + [l];
      ConcatSnoc(ls[1..], l);
    }
  }

  /** The elements of `t` that satisfy `p`, in order; used to pick calls of one kind out of a trace. */
  function Keep<T>(t: seq<T>, p: T -> bool): (r: seq<T>)
  {
    if t == [] then [] else (if p(t[0]) then [t[0]] else []) + Keep(t[1..], p)
  }

  /** Filtering distributes over concatenation. */
  lemma {:induction false} KeepAppend<T>(a: seq<T>, b: seq<T>, p: T -> bool)
    ensures Keep(a + b, p) == Keep(a, p) + Keep(b, p)
  {
    if a == [] {
      assert a + b == b;
    } else {
      var h := if p(a[0]) then [a[0]] else [];
      assert (a + b)[0] == a[0];
      assert (a + b)[1..] == a[1..] + b;
      assert Keep(a + b, p) == h + Keep(a[1..] + b, p);
      assert Keep(a, p) == h + Keep(a[1..], p);
      KeepAppend(a[1..], b, p);
      AppendAssoc(h, Keep(a[1..], p), Keep(b, p), []);
    }
  }
}
