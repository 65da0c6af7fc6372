/** Slash-separated paths as Go's `path` package treats them: `Clean` removes
    empty and `.` elements and resolves `..` lexically; `Join` joins two
    elements with `/` and cleans the result. */
module Paths {
  import opened Common

  /** A path element that survives cleaning. */
  predicate IsElement(seg: string)
  {
    seg != "" && seg != "." && '/' !in seg
  }

  /** Processes the elements left to right onto `stack`: `..` removes the last
      kept element, is dropped at the root of a rooted path, and is kept when
      there is nothing to remove in a relative one. */
  function Reduce(segs: seq<string>, stack: seq<string>, rooted: bool): (r: seq<string>)
    requires forall i :: 0 <= i < |segs| ==> '/' !in segs[i]
    requires forall i :: 0 <= i < |stack| ==> IsElement(stack[i])
    requires rooted ==> ".." !in stack
    ensures forall i :: 0 <= i < |r| ==> IsElement(r[i])
    ensures rooted ==> ".." !in r
  {
    if segs == [] then stack
    else
      var seg := segs[0];
      var next :=
        if seg == "" || seg == "." then stack
        else if seg == ".." then
          (if |stack| > 0 && stack[|stack| - 1] != ".." then stack[..|stack| - 1]
           else if rooted then stack
           else stack + [".."])
        else stack + [seg];
      Reduce(segs[1..], next, rooted)
  }

  predicate IsRooted(p: string)
  {
    |p| > 0 && p[0] == '/'
  }

  /** `path.Clean`. */
  function Clean(p: string): (r: string)
    ensures r != ""
    ensures IsRooted(r) <==> IsRooted(p)
  {
    var rooted := IsRooted(p);
    var elems := Reduce(Split(p, '/'), [], rooted);
    var body := Join(elems, "/");
    JoinHead(elems);
    if rooted then "/" + body
    else if body == "" then "."
    else body
  }

  /** A join of elements is empty only when there are none, and never starts with `/`. */
  lemma {:induction false} JoinHead(elems: seq<string>)
    requires forall i :: 0 <= i < |elems| ==> IsElement(elems[i])
    ensures Join(elems, "/") == "" <==> elems == []
    ensures elems != [] ==> IsElement(elems[0]) && Join(elems, "/")[0] == elems[0][0]
  {
    if |elems| > 1 {
      assert Join(elems, "/") == elems[0] + "/" + Join(elems[1..], "/");
    }
  }

  /** A rooted path never climbs above its root: no element of its cleaned form is `..`. */
  lemma CleanRootedHasNoParent(p: string)
    requires IsRooted(p)
    ensures forall seg :: seg in Split(Clean(p), '/') ==> seg != ".."
  {
    var elems := Reduce(Split(p, '/'), [], true);
    var body := Join(elems, "/");
    assert Clean(p) == "" + "/" + body;
    SplitAround("", '/', body);
    if elems == [] {
      assert Split(body, '/') == [""];
    } else {
      SplitJoin(elems, '/');
    }
  }

  /** `path.Join` of two elements: empty elements are ignored, and the result
      is cleaned; two empty elements give "". */
  function JoinPath(a: string, b: string): (r: string)
    ensures r == "" <==> a == "" && b == ""
    ensures IsRooted(a) ==> IsRooted(r)
  {
    if a == "" && b == "" then ""
    else if a == "" then Clean(b)
    else if b == "" then Clean(a)
    else Clean(a + "/" + b)
  }
}
