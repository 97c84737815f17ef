/**
 * Small shared vocabulary: optional values, .NET's nullable strings, the
 * prefix and suffix facts about string concatenation, and the ", "-separated
 * lists that robot code is written in.
 */
module Common {

  /** The conventional Some/None datatype. */
  datatype Option<+T> = None | Some(value: T) {
    /** The wrapped value, or `default` when there is none. */
    function GetOr(default: T): T {
      match this
      case Some(v) => v
      case None => default
    }
  }

  /** `Math.PI`, the double closest to pi. */
  const Pi: real := 3.141592653589793

  /** A .NET `string` reference: `None` stands for `null`. */
  type NString = Option<string>

  /** The text a .NET string concatenation uses for an operand: `null` reads as the empty string. */
  function Text(s: NString): string {
    s.GetOr("")
  }

  /** `suffix` is the tail of `s`. */
  predicate EndsWith(s: string, suffix: string) {
    |suffix| <= |s| && s[|s| - |suffix|..] == suffix
  }

  /** A string ends with what was appended to it. */
  lemma AppendEndsWith(s: string, t: string)
    ensures EndsWith(s + t, t)
  {
    assert (s + t)[|s|..] == t;
  }

  /** A prefix stays a prefix when more is appended. */
  lemma PrefixAppend(p: string, s: string, t: string)
    requires p <= s
    ensures p <= s + t
  {
    assert (s + t)[..|s|] == s;
  }

  // ---- ", "-separated lists ----

  /** `s` holds no ", " separator. */
  predicate NoSeparator(s: string) {
    forall i :: 0 <= i < |s| - 1 ==> !(s[i] == ',' && s[i + 1] == ' ')
  }

  /**
   * `s` can be one item of a ", "-separated list and be read back: it holds
   * no separator and does not end with a comma that one could start.
   */
  predicate Item(s: string) {
    NoSeparator(s) && (|s| == 0 || s[|s| - 1] != ',')
  }

  /** Every one of `parts` is a list item. */
  predicate Items(parts: seq<string>) {
    forall i :: 0 <= i < |parts| ==> Item(parts[i])
  }

  /** Two lists of items make one. */
  lemma ItemsAppend(a: seq<string>, b: seq<string>)
    requires Items(a) && Items(b)
    ensures Items(a + b)
  {
    forall i | 0 <= i < |a + b|
      ensures Item((a + b)[i])
    {
      if i >= |a| {
        assert (a + b)[i] == b[i - |a|];
      }
    }
  }

  /** `String.Join(", ", parts)`. */
  function Join(parts: seq<string>): string
    requires |parts| > 0
  {
    if |parts| == 1 then parts[0] else parts[0] + ", " + Join(parts[1..])
  }

  /** The index of the first ", " in `s`, or `|s|` when there is none. */
  function IndexOfSeparator(s: string): (k: nat)
    ensures k <= |s|
    ensures k < |s| ==> k + 1 < |s| && s[k] == ',' && s[k + 1] == ' '
  {
    if |s| < 2 then |s|
    else if s[0] == ',' && s[1] == ' ' then 0
    else 1 + IndexOfSeparator(s[1..])
  }

  /** `s.Split(", ")`: the items of a ", "-separated list, read left to right. */
  function Split(s: string): (parts: seq<string>)
    ensures |parts| > 0
    decreases |s|
  {
    var k := IndexOfSeparator(s);
    if k == |s| then [s] else [s[..k]] + Split(s[k + 2..])
  }

  /** The first separator after an item is the one that ends it. */
  lemma {:induction false} ItemEndsAtSeparator(p: string, rest: string)
    requires Item(p)
    ensures IndexOfSeparator(p + ", " + rest) == |p|
  {
    var s := p + ", " + rest;
    if p != [] {
      assert s[0] == p[0];
      assert s[1..] == p[1..] + ", " + rest;
      if |p| >= 2 {
        assert s[1] == p[1];
      }
      assert Item(p[1..]) by {
        forall i | 0 <= i < |p[1..]| - 1
          ensures !(p[1..][i] == ',' && p[1..][i + 1] == ' ')
        {
          assert p[1..][i] == p[i + 1] && p[1..][i + 1] == p[i + 2];
        }
      }
      ItemEndsAtSeparator(p[1..], rest);
    }
  }

  /** Splitting reads an item and its separator off the front. */
  lemma SplitItem(p: string, rest: string)
    requires Item(p)
    ensures Split(p + ", " + rest) == [p] + Split(rest)
  {
    var s := p + ", " + rest;
    ItemEndsAtSeparator(p, rest);
    assert s[..|p|] == p && s[|p| + 2..] == rest;
  }

  /** Splitting a list of items gives the items back. */
  lemma {:induction false} SplitJoin(parts: seq<string>)
    requires |parts| > 0 && Items(parts)
    ensures Split(Join(parts)) == parts
  {
    if |parts| == 1 {
      assert Join(parts) == parts[0];
    } else {
      SplitItem(parts[0], Join(parts[1..]));
      SplitJoin(parts[1..]);
      assert parts == [parts[0]] + parts[1..];
    }
  }

  /**
   * `s` reads back as `head`, then the ", "-separated items `fields`, then
   * `tail`.
   */
  predicate Framed(s: string, head: string, tail: string, fields: seq<string>) {
    |head| + |tail| <= |s| && s[..|head|] == head && s[|s| - |tail|..] == tail
    && Split(s[|head|..|s| - |tail|]) == fields
  }

  /** A list of items between a head and a tail reads back as those items. */
  lemma FramedJoin(head: string, fields: seq<string>, tail: string)
    requires |fields| > 0 && Items(fields)
    ensures Framed(head + Join(fields) + tail, head, tail, fields)
  {
    var s := head + Join(fields) + tail;
    assert s[..|head|] == head && s[|head|..|s| - |tail|] == Join(fields) && s[|s| - |tail|..] == tail;
    SplitJoin(fields);
  }

  /** Two lists joined with a separator between them are one list. */
  lemma {:induction false} JoinAppend(a: seq<string>, b: seq<string>)
    requires |a| > 0 && |b| > 0
    ensures Join(a + b) == Join(a) + ", " + Join(b)
  {
    if |a| > 1 {
      assert (a + b)[1..] == a[1..] + b;
      JoinAppend(a[1..], b);
    }
  }

  /** Text written straight after a list becomes part of its last item. */
  lemma {:induction false} JoinAppendText(a: seq<string>, t: string)
    requires |a| > 0
    ensures Join(a) + t == Join(a[..|a| - 1] + [a[|a| - 1] + t])
  {
    if |a| > 1 {
      var a' := a[..|a| - 1] + [a[|a| - 1] + t];
      assert a'[0] == a[0];
      assert a'[1..] == a[1..][..|a[1..]| - 1] + [a[1..][|a[1..]| - 1] + t];
      JoinAppendText(a[1..], t);
    }
  }

  /** Two lists written end to end, with no separator, share the item where they meet. */
  lemma JoinFuse(a: seq<string>, b: seq<string>)
    requires |a| > 0 && |b| > 0
    ensures Join(a) + Join(b) == Join(a[..|a| - 1] + [a[|a| - 1] + b[0]] + b[1..])
  {
    var a' := a[..|a| - 1] + [a[|a| - 1] + b[0]];
    JoinAppendText(a, b[0]);
    if |b| > 1 {
      assert Join(b) == b[0] + ", " + Join(b[1..]);
      JoinAppend(a', b[1..]);
    } else {
      assert a' + b[1..] == a';
    }
  }

  /** Concatenation regrouped: the last three parts taken together. */
  lemma RegroupLast(a: string, b: string, c: string, d: string)
    ensures a + b + c + d == a + (b + c + d)
  {
  }

  /** Concatenation regrouped: the middle two parts taken together. */
  lemma RegroupMiddle(h: string, m: string, t: string, e: string)
    ensures h + m + (t + e) == h + (m + t) + e
  {
  }

  /** Concatenation regrouped around two separators. */
  lemma RegroupAround(f: string, sep: string, x: string, b: string, g: string)
    ensures (f + sep + x) + (b + sep + g) == f + sep + (x + b) + sep + g
  {
  }

  /** Three items joined. */
  lemma Join3(a: string, b: string, c: string)
    ensures Join([a, b, c]) == a + ", " + b + ", " + c
  {
    assert [a, b, c][1..] == [b, c];
    assert [b, c][1..] == [c];
    assert Join([b, c]) == b + ", " + c;
  }

  /** Two items joined end to end, with no separator, make one. */
  lemma ItemAppend(a: string, b: string)
    requires Item(a) && Item(b)
    ensures Item(a + b)
  {
    forall i | 0 <= i < |a + b| - 1
      ensures !((a + b)[i] == ',' && (a + b)[i + 1] == ' ')
    {
      if i >= |a| {
        assert (a + b)[i] == b[i - |a|] && (a + b)[i + 1] == b[i + 1 - |a|];
      }
    }
  }
}
