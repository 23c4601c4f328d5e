/**
 * URL paths as '/'-separated segments. The client builds every path by plain string
 * concatenation and never escapes the IDs it splices in; Split is the reading of a
 * path that a server applies, and the route contracts state which segments each
 * caller-supplied ID contributes. The route modules write each fixed path as the
 * concatenation of its separators and segments ("/" + "air" + "/" + "orders"),
 * which is the same string as the literal the client uses.
 */
module Paths {

  /** The string contains no path separator, so it stays one segment. */
  predicate NoSlash(s: string) {
    forall i :: 0 <= i < |s| ==> s[i] != '/'
  }

  /** The segments of a path: the maximal runs between '/' characters (so "/a" has segments "" and "a"). */
  function Split(s: string): (segs: seq<string>)
    ensures |segs| > 0
  {
    if |s| == 0 then [""]
    else if s[0] == '/' then [""] + Split(s[1..])
    else
      var rest := Split(s[1..]);
      [[s[0]] + rest[0]] + rest[1..]
  }

  /** The path with these segments: adjacent segments separated by one '/'. */
  function Join(segs: seq<string>): string
    requires |segs| > 0
  {
    if |segs| == 1 then segs[0] else segs[0] + "/" + Join(segs[1..])
  }

  /** Split loses nothing: joining the segments of a path gives the path back. */
  lemma {:induction false} JoinSplit(s: string)
    ensures Join(Split(s)) == s
  {
    if |s| > 0 {
      JoinSplit(s[1..]);
      var rest := Split(s[1..]);
      if s[0] == '/' {
        assert ([""] + rest)[1..] == rest;
      } else {
        JoinFirst([s[0]], rest);
      }
      assert [s[0]] + s[1..] == s;
    }
  }

  /** Extending the first segment extends the joined path at its front. */
  lemma JoinFirst(p: string, a: seq<string>)
    requires |a| > 0
    ensures Join([p + a[0]] + a[1..]) == p + Join(a)
  {
    var b := [p + a[0]] + a[1..];
    assert b[0] == p + a[0] && b[1..] == a[1..];
    if |a| > 1 {
      JoinCons(b);
      JoinCons(a);
      Regroup(p, a[0], Join(a[1..]));
    }
  }

  /** Unfolding Join once on a list of at least two segments. */
  lemma JoinCons(segs: seq<string>)
    requires |segs| > 1
    ensures Join(segs) == segs[0] + "/" + Join(segs[1..])
  {
  }

  /** Regrouping a concatenation of strings around a separator. */
  lemma Regroup(p: string, x: string, y: string)
    ensures (p + x) + "/" + y == p + (x + "/" + y)
  {
  }

  /** So two paths with the same segments are the same path: a route's segments determine its path. */
  lemma SplitInjective(s: string, t: string)
    requires Split(s) == Split(t)
    ensures s == t
  {
    JoinSplit(s);
    JoinSplit(t);
  }

  /** A separator-free string is a single segment. */
  lemma {:induction false} SplitNoSlash(s: string)
    requires NoSlash(s)
    ensures Split(s) == [s]
  {
    if |s| > 0 {
      SplitNoSlash(s[1..]);
      assert [s[0]] + s[1..] == s;
    }
  }

  /** A leading separator opens an empty first segment. */
  lemma SplitConsSlash(t: string)
    ensures Split(['/'] + t) == [""] + Split(t)
  {
    assert (['/'] + t)[0] == '/' && (['/'] + t)[1..] == t;
  }

  /** Any other leading character joins the first segment. */
  lemma SplitConsOther(c: char, t: string)
    requires c != '/'
    ensures Split([c] + t) == [[c] + Split(t)[0]] + Split(t)[1..]
  {
    assert ([c] + t)[0] == c && ([c] + t)[1..] == t;
  }

  /** Joining two paths with '/' concatenates their segment lists. */
  lemma {:induction false} SplitSlash(x: string, y: string)
    ensures Split(x + "/" + y) == Split(x) + Split(y)
    decreases |x|
  {
    if |x| == 0 {
      assert x + "/" + y == ['/'] + y;
      SplitConsSlash(y);
    } else {
      SplitSlash(x[1..], y);
      assert x == [x[0]] + x[1..];
      if x[0] == '/' {
        SplitSlashStepSlash(x[1..], y);
      } else {
        SplitSlashStepOther(x[0], x[1..], y);
      }
    }
  }

  /** A leading separator in front of both sides keeps SplitSlash true. */
  lemma SplitSlashStepSlash(x: string, y: string)
    requires Split(x + "/" + y) == Split(x) + Split(y)
    ensures Split(['/'] + x + "/" + y) == Split(['/'] + x) + Split(y)
  {
    var s := x + "/" + y;
    assert ['/'] + x + "/" + y == ['/'] + s;
    SplitConsSlash(s);
    SplitConsSlash(x);
    PrependAssociates("", Split(x), Split(y));
  }

  /** Prepending a segment to a + b prepends it to a. */
  lemma PrependAssociates(p: string, a: seq<string>, b: seq<string>)
    ensures [p] + (a + b) == ([p] + a) + b
  {
  }

  /** Any other leading character in front of both sides keeps SplitSlash true. */
  lemma SplitSlashStepOther(c: char, x: string, y: string)
    requires c != '/'
    requires Split(x + "/" + y) == Split(x) + Split(y)
    ensures Split([c] + x + "/" + y) == Split([c] + x) + Split(y)
  {
    var s := x + "/" + y;
    assert [c] + x + "/" + y == [c] + s;
    SplitConsOther(c, s);
    SplitConsOther(c, x);
    ExtendFirst([c], Split(x), Split(y));
  }

  /** Extending the first segment of a + b extends the first segment of a. */
  lemma ExtendFirst(p: string, a: seq<string>, b: seq<string>)
    requires |a| > 0
    ensures [p + (a + b)[0]] + (a + b)[1..] == ([p + a[0]] + a[1..]) + b
  {
    assert (a + b)[0] == a[0];
    assert (a + b)[1..] == a[1..] + b;
  }

  /** A root path "/top" has exactly the segments "" and top. */
  lemma SplitRoot(top: string)
    requires NoSlash(top)
    ensures Split("/" + top) == ["", top]
  {
    assert "/" + top == "" + "/" + top;
    SplitSlash("", top);
    SplitNoSlash(top);
  }

  /** A collection path "/top/collection" has exactly the segments "", top and collection. */
  lemma SplitCollection(top: string, collection: string)
    requires NoSlash(top) && NoSlash(collection)
    ensures Split("/" + top + "/" + collection) == ["", top, collection]
  {
    SplitRoot(top);
    SplitThen("/" + top, collection);
  }

  /** A path "/top/collection/tail" starts with the segments "", top and collection, then those of tail. */
  lemma SplitBase(top: string, collection: string, tail: string)
    requires NoSlash(top) && NoSlash(collection)
    ensures Split("/" + top + "/" + collection + "/" + tail) == ["", top, collection] + Split(tail)
  {
    SplitCollection(top, collection);
    SplitSlash("/" + top + "/" + collection, tail);
  }

  /** A separator-free last segment appended with '/' adds exactly that segment. */
  lemma SplitThen(x: string, a: string)
    requires NoSlash(a)
    ensures Split(x + "/" + a) == Split(x) + [a]
  {
    SplitSlash(x, a);
    SplitNoSlash(a);
  }

  /** A separator-free segment between two paths stays one segment between theirs. */
  lemma SplitMiddle(x: string, m: string, y: string)
    requires NoSlash(m)
    ensures Split(x + "/" + m + "/" + y) == Split(x) + [m] + Split(y)
  {
    assert x + "/" + m + "/" + y == (x + "/" + m) + "/" + y;
    SplitSlash(x + "/" + m, y);
    SplitThen(x, m);
  }

  /**
   * An action on a collection member, "/top/collection/id/a/b" (".../actions/confirm"):
   * the member's ID contributes its own segments between the collection and the action.
   */
  lemma ActionPath(top: string, collection: string, id: string, a: string, b: string)
    requires NoSlash(top) && NoSlash(collection) && NoSlash(a) && NoSlash(b)
    ensures Split("/" + top + "/" + collection + "/" + id + "/" + a + "/" + b)
            == ["", top, collection] + Split(id) + [a, b]
  {
    var member := "/" + top + "/" + collection + "/" + id;
    SplitBase(top, collection, id);
    SplitThen(member, a);
    SplitThen(member + "/" + a, b);
  }
}
