/** Values shared by the whole model: optional values, the outcome of a call
    that may throw, JavaScript truthiness and `||` on optional strings, and
    JavaScript's `Array.prototype.join` on arrays of strings. */
module Values {

  datatype Option<T> = None | Some(value: T)

  /** The outcome of a call that may throw. A thrown value is kept as the
      message the handlers render from it (`err.message`, or `String(err)`
      for a value that is not an `Error`). */
  datatype Outcome<T> = Returned(value: T) | Threw(message: string)

  /** JavaScript truthiness of a string that may be `null` or `undefined`:
      present and not empty. */
  predicate Truthy(s: Option<string>) {
    s.Some? && s.value != ""
  }

  /** `a || b` where `a` may be absent. */
  function Or(a: Option<string>, b: string): string {
    if Truthy(a) then a.value else b
  }

  /** `xs.join(sep)`: the items with `sep` between neighbours; "" for no items. */
  function Join(xs: seq<string>, sep: string): string
    decreases |xs|
  {
    if |xs| == 0 then ""
    else if |xs| == 1 then xs[0]
    else Join(xs[..|xs| - 1], sep) + sep + xs[|xs| - 1]
  }

  /** Where item `k` of `xs` begins in `Join(xs, sep)`: every earlier item
      and the separator that follows it. */
  function JoinOffset(xs: seq<string>, sep: string, k: nat): nat
    requires k <= |xs|
  {
    if k == 0 then 0 else JoinOffset(xs, sep, k - 1) + |xs[k - 1]| + |sep|
  }

  lemma {:induction false} JoinOffsetPrefix(xs: seq<string>, sep: string, n: nat, k: nat)
    requires k <= n <= |xs|
    ensures JoinOffset(xs[..n], sep, k) == JoinOffset(xs, sep, k)
  {
    if k > 0 {
      JoinOffsetPrefix(xs, sep, n, k - 1);
      assert xs[..n][k - 1] == xs[k - 1];
    }
  }

  /** A join of `n` items is as long as the items plus `n - 1` separators. */
  lemma {:induction false} JoinLength(xs: seq<string>, sep: string)
    requires |xs| > 0
    ensures |Join(xs, sep)| + |sep| == JoinOffset(xs, sep, |xs|)
  {
    if |xs| > 1 {
      var n := |xs|;
      JoinLength(xs[..n - 1], sep);
      JoinOffsetPrefix(xs, sep, n - 1, n - 1);
    }
  }

  /** Offsets grow: an item, and the separator after it, end before any later
      item begins. */
  lemma {:induction false} JoinOffsetMonotone(xs: seq<string>, sep: string, k: nat, k': nat)
    requires k < k' <= |xs|
    ensures JoinOffset(xs, sep, k) + |xs[k]| + |sep| <= JoinOffset(xs, sep, k')
  {
    if k + 1 < k' {
      JoinOffsetMonotone(xs, sep, k, k' - 1);
    }
  }

  /** A slice inside the left operand of a concatenation is a slice of that operand. */
  lemma SliceOfLeft(a: string, b: string, i: nat, j: nat)
    requires i <= j <= |a|
    ensures (a + b)[i..j] == a[i..j]
  {
  }

  /** A join of several items is the join of all but the last, a separator
      and the last item; the earlier items keep their offsets. */
  lemma JoinLast(xs: seq<string>, sep: string)
    requires |xs| > 1
    ensures Join(xs, sep) == Join(xs[..|xs| - 1], sep) + (sep + xs[|xs| - 1])
    ensures |Join(xs[..|xs| - 1], sep)| + |sep| == JoinOffset(xs, sep, |xs| - 1)
  {
    var n := |xs|;
    JoinLength(xs[..n - 1], sep);
    JoinOffsetPrefix(xs, sep, n - 1, n - 1);
  }

  /** Item `k` stands, verbatim, at its offset in the join. */
  lemma {:induction false} JoinAt(xs: seq<string>, sep: string, k: nat)
    requires k < |xs|
    ensures JoinOffset(xs, sep, k) + |xs[k]| <= |Join(xs, sep)|
    ensures Join(xs, sep)[JoinOffset(xs, sep, k)..JoinOffset(xs, sep, k) + |xs[k]|] == xs[k]
  {
    var n := |xs|;
    if n == 1 {
    } else if k < n - 1 {
      JoinAt(xs[..n - 1], sep, k);
      JoinAtEarlier(xs, sep, k);
    } else {
      JoinAtLast(xs, sep);
    }
  }

  /** The step of `JoinAt` for an item before the last: where it stands in
      the join of all but the last item, it stands in the whole join. */
  lemma JoinAtEarlier(xs: seq<string>, sep: string, k: nat)
    requires k < |xs| - 1
    requires var init := xs[..|xs| - 1];
      JoinOffset(init, sep, k) + |init[k]| <= |Join(init, sep)| &&
      Join(init, sep)[JoinOffset(init, sep, k)..JoinOffset(init, sep, k) + |init[k]|] == init[k]
    ensures JoinOffset(xs, sep, k) + |xs[k]| <= |Join(xs, sep)|
    ensures Join(xs, sep)[JoinOffset(xs, sep, k)..JoinOffset(xs, sep, k) + |xs[k]|] == xs[k]
  {
    var n := |xs|;
    var init := xs[..n - 1];
    JoinLast(xs, sep);
    JoinOffsetPrefix(xs, sep, n - 1, k);
    assert init[k] == xs[k];
    var off := JoinOffset(xs, sep, k);
    SliceOfLeft(Join(init, sep), sep + xs[n - 1], off, off + |xs[k]|);
  }

  /** The last item closes the join. */
  lemma JoinAtLast(xs: seq<string>, sep: string)
    requires |xs| > 1
    ensures JoinOffset(xs, sep, |xs| - 1) + |xs[|xs| - 1]| == |Join(xs, sep)|
    ensures Join(xs, sep)[JoinOffset(xs, sep, |xs| - 1)..] == xs[|xs| - 1]
  {
    var n := |xs|;
    JoinLast(xs, sep);
    var front := Join(xs[..n - 1], sep);
    assert Join(xs, sep) == (front + sep) + xs[n - 1];
  }

  /** A slice that starts right after the left operand of a concatenation
      is a slice of the right operand. */
  lemma SliceOfRight(a: string, b: string, i: nat, j: nat)
    requires i <= j <= |b|
    ensures (a + b)[|a| + i..|a| + j] == b[i..j]
  {
  }

  /** Between item `k` and item `k + 1` of a join stands the separator. */
  lemma {:induction false} JoinSeparatorAt(xs: seq<string>, sep: string, k: nat)
    requires k + 1 < |xs|
    ensures JoinOffset(xs, sep, k + 1) <= |Join(xs, sep)|
    ensures Join(xs, sep)[JoinOffset(xs, sep, k) + |xs[k]|..JoinOffset(xs, sep, k + 1)] == sep
  {
    var n := |xs|;
    if k + 1 < n - 1 {
      JoinSeparatorAt(xs[..n - 1], sep, k);
      JoinSeparatorEarlier(xs, sep, k);
    } else {
      JoinSeparatorLast(xs, sep);
    }
  }

  /** The step of `JoinSeparatorAt` for a separator before the last one. */
  lemma JoinSeparatorEarlier(xs: seq<string>, sep: string, k: nat)
    requires k + 1 < |xs| - 1
    requires var init := xs[..|xs| - 1];
      JoinOffset(init, sep, k + 1) <= |Join(init, sep)| &&
      Join(init, sep)[JoinOffset(init, sep, k) + |init[k]|..JoinOffset(init, sep, k + 1)] == sep
    ensures JoinOffset(xs, sep, k + 1) <= |Join(xs, sep)|
    ensures Join(xs, sep)[JoinOffset(xs, sep, k) + |xs[k]|..JoinOffset(xs, sep, k + 1)] == sep
  {
    var n := |xs|;
    var init := xs[..n - 1];
    JoinLast(xs, sep);
    JoinOffsetPrefix(xs, sep, n - 1, k + 1);
    JoinOffsetPrefix(xs, sep, n - 1, k);
    assert init[k] == xs[k];
    SliceOfLeft(Join(init, sep), sep + xs[n - 1], JoinOffset(xs, sep, k) + |xs[k]|, JoinOffset(xs, sep, k + 1));
  }

  /** The last separator stands right before the last item. */
  lemma JoinSeparatorLast(xs: seq<string>, sep: string)
    requires |xs| > 1
    ensures JoinOffset(xs, sep, |xs| - 1) <= |Join(xs, sep)|
    ensures Join(xs, sep)[JoinOffset(xs, sep, |xs| - 2) + |xs[|xs| - 2]|..JoinOffset(xs, sep, |xs| - 1)] == sep
  {
    var n := |xs|;
    JoinLast(xs, sep);
    var front := Join(xs[..n - 1], sep);
    assert JoinOffset(xs, sep, n - 2) + |xs[n - 2]| == |front|;
    SliceOfRight(front, sep + xs[n - 1], 0, |sep|);
  }

  /** `t` stands, verbatim, at offset `at` of `s`. */
  predicate StandsAt(s: string, at: nat, t: string) {
    at + |t| <= |s| && s[at..at + |t|] == t
  }

  /** What stands in `s` still stands there, shifted, after a prefix. */
  lemma StandsAfter(pre: string, s: string, at: nat, t: string)
    requires StandsAt(s, at, t)
    ensures StandsAt(pre + s, |pre| + at, t)
  {
    SliceOfRight(pre, s, at, at + |t|);
  }

  /** A concatenation begins with its left operand. */
  lemma StandsFirst(a: string, b: string)
    ensures StandsAt(a + b, 0, a)
  {
    SliceOfLeft(a, b, 0, |a|);
  }

  /** Where `t` stands in `s`, whatever stands in `t` stands at the
      matching place of `s`. */
  lemma StandsWithin(s: string, at: nat, t: string, i: nat, u: string)
    requires StandsAt(s, at, t) && StandsAt(t, i, u)
    ensures StandsAt(s, at + i, u)
  {
    forall n | 0 <= n < |u|
      ensures s[at + i..at + i + |u|][n] == u[n]
    {
      assert s[at + i + n] == s[at..at + |t|][i + n];
      assert u[n] == t[i..i + |u|][n];
    }
  }

  /** `JoinAt` and `JoinSeparatorAt` for a join that follows a fixed prefix. */
  lemma JoinAtAfter(pre: string, xs: seq<string>, sep: string, k: nat)
    requires k < |xs|
    ensures StandsAt(pre + Join(xs, sep), |pre| + JoinOffset(xs, sep, k), xs[k])
    ensures k + 1 < |xs| ==>
      StandsAt(pre + Join(xs, sep), |pre| + JoinOffset(xs, sep, k) + |xs[k]|, sep) &&
      JoinOffset(xs, sep, k + 1) == JoinOffset(xs, sep, k) + |xs[k]| + |sep|
  {
    JoinAt(xs, sep, k);
    StandsAfter(pre, Join(xs, sep), JoinOffset(xs, sep, k), xs[k]);
    if k + 1 < |xs| {
      JoinSeparatorAt(xs, sep, k);
      StandsAfter(pre, Join(xs, sep), JoinOffset(xs, sep, k) + |xs[k]|, sep);
    }
  }

  /** Where a block made of a heading and a body stands in `p`, the heading
      stands at the start of the block, and whatever stands in the body
      stands after the heading. */
  lemma InBlock(p: string, at: nat, h: string, body: string, off: nat, t: string)
    requires StandsAt(p, at, h + body) && StandsAt(body, off, t)
    ensures StandsAt(p, at, h)
    ensures StandsAt(p, at + |h| + off, t)
  {
    StandsFirst(h, body);
    StandsWithin(p, at, h + body, 0, h);
    StandsAfter(h, body, off, t);
    StandsWithin(p, at, h + body, |h| + off, t);
  }
}
