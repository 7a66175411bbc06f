/** Lexical slash-separated path handling with the meaning of Go's `path.Clean`
    and `path.Join`. */
module Paths {
  import Strs

  /** Folds the segments of a path: empty and `.` segments vanish, `..` removes
      the segment before it, and a `..` that climbs above the root is dropped
      from a rooted path but kept in a relative one. */
  function CleanSegments(segs: seq<string>, rooted: bool, acc: seq<string>): seq<string>
    decreases |segs|
  {
    if |segs| == 0 then acc
    else
      var seg := segs[0];
      if seg == "" || seg == "." then CleanSegments(segs[1..], rooted, acc)
      else if seg == ".." then
        if |acc| > 0 && acc[|acc| - 1] != ".." then CleanSegments(segs[1..], rooted, acc[..|acc| - 1])
        else if rooted then CleanSegments(segs[1..], rooted, acc)
        else CleanSegments(segs[1..], rooted, acc + [".."])
      else CleanSegments(segs[1..], rooted, acc + [seg])
  }

  /** `path.Clean`: the shortest lexically equivalent path. */
  function Clean(p: string): (r: string)
    ensures |r| > 0
    ensures |p| > 0 && p[0] == '/' ==> r[0] == '/'
  {
    if p == "" then "."
    else
      var rooted := p[0] == '/';
      var body := Strs.Join(CleanSegments(Strs.Split(p, '/'), rooted, []), '/');
      if rooted then "/" + body
      else if body == "" then "."
      else body
  }

  /** `path.Join`: joins the elements from the first non-empty one on with
      slashes and cleans the result; all-empty elements give "". */
  function Join(elems: seq<string>): (r: string)
    ensures r == "" <==> forall i :: 0 <= i < |elems| ==> elems[i] == ""
  {
    if |elems| == 0 then ""
    else if elems[0] != "" then Clean(Strs.Join(elems, '/'))
    else Join(elems[1..])
  }
}
