/**
 * The parsed HTML tree that BeautifulSoup hands to the scraper, and the
 * few queries the client makes of it. A document is a tag whose children
 * are the top-level nodes; `find_all` visits the descendants of a tag in
 * document (pre-)order.
 */
module Html {
  import opened Wrappers
  import PyStr

  datatype Node = Text(content: string) | Elem(tag: Tag)

  datatype Tag = Tag(name: string, attrs: map<string, string>, children: seq<Node>)

  /** `tag.has_attr(a) and tag[a] == v` */
  predicate AttrIs(t: Tag, a: string, v: string)
  {
    a in t.attrs && t.attrs[a] == v
  }

  /** Every tag below `t`, in document order (what `t.find_all()` visits). */
  function Descendants(t: Tag): seq<Tag>
  {
    DescendantsOf(t.children)
  }

  function DescendantsOf(ns: seq<Node>): seq<Tag>
    decreases ns
  {
    if ns == [] then []
    else
      var here := match ns[0]
        case Text(_) => []
        case Elem(c) => assert c < ns[0]; [c] + DescendantsOf(c.children);
      here + DescendantsOf(ns[1..])
  }

  /** The text pieces below `t`, in document order (`t.strings`). */
  function Strings(t: Tag): seq<string>
  {
    StringsOf(t.children)
  }

  function StringsOf(ns: seq<Node>): seq<string>
    decreases ns
  {
    if ns == [] then []
    else
      var here := match ns[0]
        case Text(s) => [s]
        case Elem(c) => assert c < ns[0]; StringsOf(c.children);
      here + StringsOf(ns[1..])
  }

  /** `t.string`: the only text below a chain of only-children, or None. */
  function StringOf(t: Tag): Option<string>
  {
    if |t.children| != 1 then None
    else match t.children[0]
      case Text(s) => Some(s)
      case Elem(c) => StringOf(c)
  }

  /** `t.text`: all text pieces below `t` glued together. */
  function GetText(t: Tag): string
  {
    Concat(Strings(t))
  }

  function Concat(pieces: seq<string>): string
  {
    if pieces == [] then "" else pieces[0] + Concat(pieces[1..])
  }

  /**
   * The separators of a `class` attribute. BeautifulSoup splits it on a
   * `\s+` pattern compiled without the Unicode flag, which under Python 2
   * matches only ASCII whitespace.
   */
  predicate IsClassSpace(c: char)
  {
    c == ' ' || '\t' <= c <= '\r'
  }

  /** `s` without its leading class separators. */
  function SkipClassSpace(s: string): (r: string)
    ensures |r| <= |s| && r == s[|s| - |r|..]
    ensures r == [] || !IsClassSpace(r[0])
    ensures forall i :: 0 <= i < |s| - |r| ==> IsClassSpace(s[i])
  {
    if s != [] && IsClassSpace(s[0]) then SkipClassSpace(s[1..]) else s
  }

  /** The words of a `class` attribute, between runs of separators. */
  function Words(s: string): seq<string>
    decreases |s|
  {
    var t := SkipClassSpace(s);
    if t == [] then []
    else
      var n := WordLength(t);
      [t[..n]] + Words(t[n..])
  }

  /** Length of the first word of `s`: the run before the first separator. */
  function WordLength(s: string): (n: nat)
    ensures n <= |s|
    ensures forall i :: 0 <= i < n ==> !IsClassSpace(s[i])
    ensures n < |s| ==> IsClassSpace(s[n])
  {
    if s == [] || IsClassSpace(s[0]) then 0 else WordLength(s[1..]) + 1
  }

  /**
   * BeautifulSoup's `class_=c` filter: the class attribute is `c`, or one
   * of its words is `c`.
   */
  predicate HasClass(t: Tag, c: string)
  {
    "class" in t.attrs && (t.attrs["class"] == c || c in Words(t.attrs["class"]))
  }

  /** `t.find_all(name, class_=c)` */
  function FindAllByClass(t: Tag, name: string, c: string): (r: seq<Tag>)
    ensures forall i :: 0 <= i < |r| ==> r[i].name == name && HasClass(r[i], c)
  {
    FilterByClass(Descendants(t), name, c)
  }

  function FilterByClass(ts: seq<Tag>, name: string, c: string): (r: seq<Tag>)
    ensures |r| <= |ts|
    ensures forall i :: 0 <= i < |r| ==> r[i].name == name && HasClass(r[i], c)
  {
    if ts == [] then []
    else (if ts[0].name == name && HasClass(ts[0], c) then [ts[0]] else []) + FilterByClass(ts[1..], name, c)
  }

  /** The filter keeps exactly the tags of `ts` with that name and class. */
  lemma {:induction false} FilterByClassMembers(ts: seq<Tag>, name: string, c: string)
    ensures forall u :: u in FilterByClass(ts, name, c) <==> u in ts && u.name == name && HasClass(u, c)
  {
    if ts != [] {
      FilterByClassMembers(ts[1..], name, c);
      assert forall u :: u in ts <==> u == ts[0] || u in ts[1..];
    }
  }

  /** `find_all` finds exactly the descendants with that name and class. */
  lemma FindAllByClassMembers(t: Tag, name: string, c: string)
    ensures forall u :: u in FindAllByClass(t, name, c) <==> u in Descendants(t) && u.name == name && HasClass(u, c)
  {
    FilterByClassMembers(Descendants(t), name, c);
  }

  /** Filtering keeps order: the matches of `a + b` are those of `a`, then those of `b`. */
  lemma {:induction false} FilterByClassAppend(a: seq<Tag>, b: seq<Tag>, name: string, c: string)
    ensures FilterByClass(a + b, name, c) == FilterByClass(a, name, c) + FilterByClass(b, name, c)
  {
    if a == [] {
      assert a + b == b;
    } else {
      assert (a + b)[0] == a[0] && (a + b)[1..] == a[1..] + b;
      FilterByClassAppend(a[1..], b, name, c);
    }
  }
}
