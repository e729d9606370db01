/** The record shaper: the conversion of one element subtree into the nested
    attributes / children / content structure handed to the callback
    (`Fetcher.__to_dict`), together with the whitespace trimming of
    Python's `str.strip()` that produces the content. */
module Shaper {
  import opened Xml
  import opened Seqs

  /** What `__to_dict` returns. The source returns a dict with exactly the
      three keys "attributes", "children" and "content"; here those keys are
      the three fields, so no other key can occur. */
  datatype Record = Record(
    attributes: map<string, string>,
    children: map<string, seq<Record>>,
    content: string)

  /** Python's `str.isspace()` for one character: the code points with the
      Unicode whitespace property that `str.strip()` removes. */
  predicate IsSpace(c: char) {
    var n := c as int;
    (9 <= n <= 13) || (28 <= n <= 32) || n == 0x85 || n == 0xA0 || n == 0x1680 ||
    (0x2000 <= n <= 0x200A) || n == 0x2028 || n == 0x2029 || n == 0x202F ||
    n == 0x205F || n == 0x3000
  }

  /** The number of whitespace characters at the front of `s`. */
  function LeadingSpaces(s: string): (n: nat)
    ensures n <= |s|
    ensures forall k :: 0 <= k < n ==> IsSpace(s[k])
    ensures n < |s| ==> !IsSpace(s[n])
  {
    if s == [] || !IsSpace(s[0]) then 0 else 1 + LeadingSpaces(s[1..])
  }

  /** The number of whitespace characters at the end of `s`. */
  function TrailingSpaces(s: string): (n: nat)
    ensures n <= |s|
    ensures forall k :: |s| - n <= k < |s| ==> IsSpace(s[k])
    ensures n < |s| ==> !IsSpace(s[|s| - 1 - n])
  {
    if s == [] || !IsSpace(s[|s| - 1]) then 0 else 1 + TrailingSpaces(s[..|s| - 1])
  }

  /** `s.strip()`: the longest slice of `s` that neither starts nor ends with
      whitespace, everything cut off on either side being whitespace. */
  function Strip(s: string): (r: string)
    ensures r == [] || (!IsSpace(r[0]) && !IsSpace(r[|r| - 1]))
    ensures r == [] <==> forall k :: 0 <= k < |s| ==> IsSpace(s[k])
    ensures LeadingSpaces(s) + |r| <= |s|
    ensures r == s[LeadingSpaces(s)..LeadingSpaces(s) + |r|]
    ensures forall k :: LeadingSpaces(s) + |r| <= k < |s| ==> IsSpace(s[k])
  {
    var lo := LeadingSpaces(s);
    var rest := s[lo..];
    var r := rest[..|rest| - TrailingSpaces(rest)];
    assert r == s[lo..lo + |r|];
    r
  }

  /** The "content" entry: the stripped text, or the empty string when the
      element has no text (absent or empty). */
  function Content(text: Option<string>): (c: string)
    ensures c == [] || (!IsSpace(c[0]) && !IsSpace(c[|c| - 1]))
    ensures text.None? ==> c == []
    ensures text.Some? ==> c == Strip(text.value)
  {
    match text
    case None => ""
    case Some(t) => if t != "" then Strip(t) else ""
  }

  /** `__to_dict(element)`: the attribute map as it is, the children grouped
      by tag, and the stripped text. */
  function ToDict(e: Element): (r: Record)
    ensures r.attributes == e.attrib
    ensures r.content == Content(e.text)
    decreases e, |e.children| + 1
  {
    Record(e.attrib, Group(e, |e.children|), Content(e.text))
  }

  /** The `children` dict after the loop of `__to_dict` has visited the first
      `n` children of `e`: each child's record appended to the list of its
      tag, the list created on the tag's first occurrence. */
  function Group(e: Element, n: nat): map<string, seq<Record>>
    requires n <= |e.children|
    decreases e, n
  {
    if n == 0 then map[]
    else
      var m := Group(e, n - 1);
      var c := e.children[n - 1];
      m[c.tag := (if c.tag in m then m[c.tag] else []) + [ToDict(c)]]
  }

  /** One more child: its record is appended to the group of its tag. */
  lemma GroupSnoc(e: Element, n: nat)
    requires 0 < n <= |e.children|
    ensures Group(e, n) == Group(e, n - 1)[e.children[n - 1].tag :=
      (if e.children[n - 1].tag in Group(e, n - 1) then Group(e, n - 1)[e.children[n - 1].tag] else [])
      + [ToDict(e.children[n - 1])]]
  {
  }

  /** The step of the loop of `Shape`, stated on its own variables. */
  lemma GroupStep(e: Element, i: nat, children: map<string, seq<Record>>, c: Record)
    requires i < |e.children| && children == Group(e, i) && c == ToDict(e.children[i])
    ensures Group(e, i + 1)
         == children[e.children[i].tag :=
              (if e.children[i].tag in children then children[e.children[i].tag] else []) + [c]]
  {
  }

  lemma TagsOfSnoc(cs: seq<Element>, c: Element)
    ensures TagsOf(cs + [c]) == TagsOf(cs) + {c.tag}
  {
    assert forall x :: x in cs + [c] <==> x in cs || x == c;
  }

  /** The groups of the first `n` children: one per tag among them, none
      empty. */
  lemma {:induction false} GroupKeys(e: Element, n: nat)
    requires n <= |e.children|
    ensures Group(e, n).Keys == TagsOf(e.children[..n])
    ensures forall t :: t in Group(e, n) ==> |Group(e, n)[t]| > 0
  {
    if n == 0 {
      assert TagsOf(e.children[..0]) == {};
    } else {
      GroupKeys(e, n - 1);
      var c := e.children[n - 1];
      PrefixSnoc(e.children, n);
      TagsOfSnoc(e.children[..n - 1], c);
      GroupSnoc(e, n);
    }
  }

  /** `__to_dict` as the source runs it: a loop over the children that fills
      a dict of lists, calling itself on each child. */
  method Shape(e: Element) returns (r: Record)
    ensures r == ToDict(e)
    decreases e
  {
    var children: map<string, seq<Record>> := map[];
    var i := 0;
    while i < |e.children|
      invariant 0 <= i <= |e.children|
      invariant children == Group(e, i)
    {
      var child := e.children[i];
      ghost var before := children;
      if child.tag !in children {
        children := children[child.tag := []];
      }
      var c := Shape(child);
      children := children[child.tag := children[child.tag] + [c]];
      GroupStep(e, i, before, c);
      assert children == before[child.tag := (if child.tag in before then before[child.tag] else []) + [c]];
      i := i + 1;
    }
    r := Record(e.attrib, children, Content(e.text));
    assert r == Record(e.attrib, Group(e, |e.children|), Content(e.text));
  }

  /** Reference definition of one group: the records of the elements of `cs`
      that carry tag `t`, in document order. */
  function WithTag(cs: seq<Element>, t: string): seq<Record>
  {
    if cs == [] then []
    else (if cs[0].tag == t then [ToDict(cs[0])] else []) + WithTag(cs[1..], t)
  }

  lemma {:induction false} WithTagAppend(a: seq<Element>, b: seq<Element>, t: string)
    ensures WithTag(a + b, t) == WithTag(a, t) + WithTag(b, t)
  {
    if a != [] {
      assert (a + b)[1..] == a[1..] + b;
      WithTagAppend(a[1..], b, t);
    } else {
      assert a + b == b;
    }
  }

  /** Each group of the first `n` children lists, in document order, the
      records of exactly the children with that tag; a tag none of them
      carries has no group. */
  lemma {:induction false} GroupIsFilter(e: Element, n: nat, t: string)
    requires n <= |e.children|
    ensures (if t in Group(e, n) then Group(e, n)[t] else []) == WithTag(e.children[..n], t)
  {
    if n > 0 {
      var c := e.children[n - 1];
      var m := Group(e, n - 1);
      var pre := e.children[..n - 1];
      GroupIsFilter(e, n - 1, t);
      GroupSnoc(e, n);
      PrefixSnoc(e.children, n);
      WithTagAppend(pre, [c], t);
      assert [c][1..] == [];
      if c.tag == t {
        assert WithTag([c], t) == [ToDict(c)];
        assert Group(e, n)[t] == (if t in m then m[t] else []) + [ToDict(c)];
      } else {
        assert WithTag([c], t) == [];
        assert (t in Group(e, n)) == (t in m);
        assert t in m ==> Group(e, n)[t] == m[t];
      }
    }
  }

  /** The number of records in all groups of a children dict. */
  ghost function Total(m: map<string, seq<Record>>): nat
    decreases |m|
  {
    if m == map[] then 0
    else
      var k :| k in m;
      assert |m - {k}| == |m| - 1 by {
        assert (m - {k}).Keys == m.Keys - {k};
      }
      |m[k]| + Total(m - {k})
  }

  /** The total does not depend on the key the definition happens to pick. */
  lemma {:induction false} TotalRemove(m: map<string, seq<Record>>, k: string)
    requires k in m
    ensures Total(m) == |m[k]| + Total(m - {k})
    decreases |m|
  {
    var j :| j in m && Total(m) == |m[j]| + Total(m - {j});
    if j != k {
      var mj, mk := m - {j}, m - {k};
      assert |mj| == |m| - 1 by { assert mj.Keys == m.Keys - {j}; }
      assert |mk| == |m| - 1 by { assert mk.Keys == m.Keys - {k}; }
      TotalRemove(mj, k);
      TotalRemove(mk, j);
      assert mj - {k} == mk - {j};
    }
  }

  /** Updating one key changes the total by the change in that key's group. */
  lemma TotalUpdate(m: map<string, seq<Record>>, k: string, v: seq<Record>)
    ensures Total(m[k := v]) == Total(m) - (if k in m then |m[k]| else 0) + |v|
  {
    TotalRemove(m[k := v], k);
    assert m[k := v] - {k} == m - {k};
    if k in m {
      TotalRemove(m, k);
    } else {
      assert m - {k} == m;
    }
  }

  /** The group sizes of the first `n` children sum to `n`. */
  lemma {:induction false} GroupTotal(e: Element, n: nat)
    requires n <= |e.children|
    ensures Total(Group(e, n)) == n
  {
    if n > 0 {
      GroupTotal(e, n - 1);
      var m := Group(e, n - 1);
      var c := e.children[n - 1];
      var v := (if c.tag in m then m[c.tag] else []) + [ToDict(c)];
      assert Group(e, n) == m[c.tag := v];
      TotalUpdate(m, c.tag, v);
    }
  }

  /** The record of an element: one non-empty group per distinct child tag,
      the group sizes summing to the number of direct children, and each
      group the records of the children with that tag in document order. */
  lemma ChildrenOfRecord(e: Element, t: string)
    ensures ToDict(e).children.Keys == TagsOf(e.children)
    ensures Total(ToDict(e).children) == |e.children|
    ensures t in ToDict(e).children ==> |ToDict(e).children[t]| > 0
    ensures (if t in ToDict(e).children then ToDict(e).children[t] else []) == WithTag(e.children, t)
  {
    PrefixAll(e.children);
    GroupKeys(e, |e.children|);
    GroupTotal(e, |e.children|);
    GroupIsFilter(e, |e.children|, t);
  }
}
