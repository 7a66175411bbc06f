/** Reverse routing: rebuilding a URL for a controller method by walking a
    route tree (`geturl`) and appending the leftover params as a query
    (`tourl`). */
module Reverse {
  import Strs
  import Paths
  import opened Routes

  /** A compiled regular expression, seen through its source text (`String`)
      and its match test (`MatchString`). */
  datatype Regexp = Regexp(source: string, matches: string -> bool)

  /** A leaf of a route tree: its route, the names of its wildcards in order,
      and its regular expression when its pattern needs one. */
  datatype Leaf = Leaf(runObject: ControllerInfo, wildcards: seq<string>, regexps: Option<Regexp>)

  /** The part of a route tree reverse lookup walks: the fixed children with
      their segments, in the order the walk visits them, the wildcard child
      and the leaves. */
  datatype UrlTree = UrlTree(fixrouters: seq<(string, UrlTree)>, wildcard: Option<UrlTree>, leaves: seq<Leaf>)

  /** What `geturl` answers: a URL, nothing, or the panic it raised. */
  datatype UrlResult = Hit(url: string) | Miss | Crash(msg: string)

  /** `after` is `before` with some keys deleted and no value changed. */
  predicate Consumed(after: map<string, string>, before: map<string, string>)
  {
    forall k | k in after :: k in before && after[k] == before[k]
  }

  lemma ConsumedTrans(a: map<string, string>, b: map<string, string>, c: map<string, string>)
    requires Consumed(a, b) && Consumed(b, c)
    ensures Consumed(a, c)
  {
  }

  // ---------------------------------------------------------------- tourl

  /** The `k=v&` text of the pairs of `params` in the order `keys` lists them. */
  function Pairs(keys: seq<string>, params: map<string, string>): string
    requires forall i | 0 <= i < |keys| :: keys[i] in params
  {
    if |keys| == 0 then "" else keys[0] + "=" + params[keys[0]] + "&" + Pairs(keys[1..], params)
  }

  /** `tourl` when the map is iterated in the order `keys`: nothing for no
      params, otherwise `?` and the pairs, with the trailing `&`s trimmed. */
  function QueryString(keys: seq<string>, params: map<string, string>): string
    requires forall i | 0 <= i < |keys| :: keys[i] in params
  {
    if |params| == 0 then "" else Strs.TrimRight("?" + Pairs(keys, params), '&')
  }

  /** `keys` lists every key of `params` once. */
  predicate IsOrder(keys: seq<string>, params: map<string, string>)
  {
    && (forall i | 0 <= i < |keys| :: keys[i] in params)
    && (forall k | k in params :: k in keys)
    && (forall i, j | 0 <= i < j < |keys| :: keys[i] != keys[j])
  }

  lemma PairsSnoc(keys: seq<string>, k: string, params: map<string, string>)
    requires forall i | 0 <= i < |keys| :: keys[i] in params
    requires k in params
    ensures Pairs(keys + [k], params) == Pairs(keys, params) + k + "=" + params[k] + "&"
    decreases |keys|
  {
    if |keys| > 0 {
      assert (keys + [k])[1..] == keys[1..] + [k];
      PairsSnoc(keys[1..], k, params);
    }
  }

  /** Taking one more key out of the ones not yet visited keeps the visited
      keys distinct, in the map and apart from the rest. */
  lemma OrderStep<V>(keys: seq<string>, k: string, rest: set<string>, params: map<string, V>)
    requires k in rest && rest <= params.Keys
    requires forall i | 0 <= i < |keys| :: keys[i] in params && keys[i] !in rest
    requires forall k' | k' in params :: k' in rest || k' in keys
    requires forall i, j | 0 <= i < j < |keys| :: keys[i] != keys[j]
    ensures var keys', rest' := keys + [k], rest - {k};
            && (forall i | 0 <= i < |keys'| :: keys'[i] in params && keys'[i] !in rest')
            && (forall k' | k' in params :: k' in rest' || k' in keys')
            && (forall i, j | 0 <= i < j < |keys'| :: keys'[i] != keys'[j])
  {
    var keys' := keys + [k];
    forall i, j | 0 <= i < j < |keys'| ensures keys'[i] != keys'[j] {
      assert keys'[i] == keys[i];
    }
  }

  /** `tourl`: iterates the map in an order of its choosing.  The order it
      took is returned as a ghost. */
  method ToUrl(params: map<string, string>) returns (u: string, ghost keys: seq<string>)
    ensures IsOrder(keys, params)
    ensures u == QueryString(keys, params)
    ensures u == "" <==> |params| == 0
    ensures |params| > 0 ==> u[0] == '?'
  {
    keys := [];
    if |params| == 0 {
      return "", keys;
    }
    var s := "?";
    var rest := params.Keys;
    while rest != {}
      invariant rest <= params.Keys
      invariant forall i | 0 <= i < |keys| :: keys[i] in params && keys[i] !in rest
      invariant forall k | k in params :: k in rest || k in keys
      invariant forall i, j | 0 <= i < j < |keys| :: keys[i] != keys[j]
      invariant s == "?" + Pairs(keys, params)
      decreases rest
    {
      var k :| k in rest;
      s := s + k + "=" + params[k] + "&";
      PairsSnoc(keys, k, params);
      OrderStep(keys, k, rest, params);
      keys := keys + [k];
      rest := rest - {k};
    }
    assert IsOrder(keys, params);
    u := Strs.TrimRight(s, '&');
    QueryStringEmpty(keys, params);
    assert u == s[..|u|] && s[0] == '?';
  }

  /** `tourl` gives the empty string exactly when there are no params. */
  lemma QueryStringEmpty(keys: seq<string>, params: map<string, string>)
    requires forall i | 0 <= i < |keys| :: keys[i] in params
    ensures QueryString(keys, params) == "" <==> |params| == 0
  {
    if |params| > 0 {
      var s := "?" + Pairs(keys, params);
      assert s[0] == '?';
    }
  }

  /** The `k=v` texts of the pairs in the order `keys` lists them. */
  function KeyValues(keys: seq<string>, params: map<string, string>): (kv: seq<string>)
    requires forall i | 0 <= i < |keys| :: keys[i] in params
    ensures |kv| == |keys|
    ensures forall i | 0 <= i < |keys| :: kv[i] == keys[i] + "=" + params[keys[i]]
  {
    seq(|keys|, i requires 0 <= i < |keys| => keys[i] + "=" + params[keys[i]])
  }

  lemma {:induction false} PairsJoin(keys: seq<string>, params: map<string, string>)
    requires forall i | 0 <= i < |keys| :: keys[i] in params
    requires |keys| > 0
    ensures Pairs(keys, params) == Strs.Join(KeyValues(keys, params), '&') + "&"
    decreases |keys|
  {
    var kv := KeyValues(keys, params);
    if |keys| > 1 {
      PairsJoin(keys[1..], params);
      assert KeyValues(keys[1..], params) == kv[1..];
    }
  }

  lemma TrimOneAmp(x: string)
    requires |x| > 0 && x[|x| - 1] != '&'
    ensures Strs.TrimRight(x + "&", '&') == x
  {
    assert (x + "&")[..|x + "&"| - 1] == x;
  }

  /** When no value ends in `&`, the query of a non-empty map is `?` followed
      by the `k=v` pairs joined by `&`, in the order the map was iterated. */
  lemma QueryStringPairs(keys: seq<string>, params: map<string, string>)
    requires IsOrder(keys, params) && |params| > 0
    requires forall k | k in params :: !Strs.HasSuffix(params[k], "&")
    ensures QueryString(keys, params) == "?" + Strs.Join(KeyValues(keys, params), '&')
  {
    OrderNonEmpty(keys, params);
    PairsJoin(keys, params);
    var x := "?" + Strs.Join(KeyValues(keys, params), '&');
    JoinEndsWithoutAmp(keys, params);
    TrimOneAmp(x);
    calc {
      QueryString(keys, params);
      Strs.TrimRight("?" + Pairs(keys, params), '&');
      { assert "?" + Pairs(keys, params) == x + "&"; }
      Strs.TrimRight(x + "&", '&');
    }
  }

  lemma OrderNonEmpty(keys: seq<string>, params: map<string, string>)
    requires IsOrder(keys, params) && |params| > 0
    ensures |keys| > 0
  {
    var k :| k in params;
    assert k in keys;
  }

  /** The joined pairs end in the last value, or in `=` when it is empty. */
  lemma JoinEndsWithoutAmp(keys: seq<string>, params: map<string, string>)
    requires forall i | 0 <= i < |keys| :: keys[i] in params
    requires |keys| > 0
    requires forall k | k in params :: !Strs.HasSuffix(params[k], "&")
    ensures var x := "?" + Strs.Join(KeyValues(keys, params), '&');
            |x| > 0 && x[|x| - 1] != '&'
  {
    var kv := KeyValues(keys, params);
    var last := keys[|keys| - 1];
    LastOfJoin(kv, '&');
    var v := params[last];
    if |v| == 0 {
      assert kv[|kv| - 1] == last + "=";
    } else {
      assert kv[|kv| - 1][|kv[|kv| - 1]| - 1] == v[|v| - 1];
      assert v[|v| - 1..] != "&";
    }
  }

  /** A join ends with its last part. */
  lemma {:induction false} LastOfJoin(parts: seq<string>, sep: char)
    requires |parts| > 0
    ensures var j := Strs.Join(parts, sep);
            var p := parts[|parts| - 1];
            |j| >= |p| && j[|j| - |p|..] == p
    decreases |parts|
  {
    if |parts| > 1 {
      LastOfJoin(parts[1..], sep);
    }
  }

  // -------------------------------------------------------------- leaf match

  /** Whether a route serves `methodName` for the tree of `httpMethod`: a
      verb-named method needs no mapping entry when the route has none, or is
      mapped to itself; otherwise `*` or the tree's verb must map to it. */
  predicate MethodFound(methods: map<string, string>, methodName: string, httpMethod: string)
  {
    var up := Strs.ToUpper(methodName);
    || (up in HttpMethods
        && (|methods| == 0 || (up in methods && methods[up] == up) || ("*" in methods && methods["*"] == methodName)))
    || (exists m | m in methods :: (m == "*" || m == httpMethod) && methods[m] == methodName)
  }

  /** The `find` decision of `geturl`: the quick checks for a verb-named
      method, then a scan of the whole mapping. */
  method FindMethod(methods: map<string, string>, methodName: string, httpMethod: string) returns (find: bool)
    ensures find <==> MethodFound(methods, methodName, httpMethod)
  {
    find := false;
    var up := Strs.ToUpper(methodName);
    if up in HttpMethods {
      if |methods| == 0 {
        find := true;
      } else if up in methods && methods[up] == up {
        find := true;
      } else if "*" in methods && methods["*"] == methodName {
        find := true;
      }
    }
    if !find {
      var rest := methods.Keys;
      while rest != {}
        invariant rest <= methods.Keys
        invariant find <==> exists m | m in methods.Keys - rest :: (m == "*" || m == httpMethod) && methods[m] == methodName
        decreases rest
      {
        var m :| m in rest;
        if (m == "*" || m == httpMethod) && methods[m] == methodName {
          find := true;
        }
        rest := rest - {m};
      }
    }
  }

  /** A route without a mapping serves exactly the verb-named methods. */
  lemma MethodFoundUnmapped(methodName: string, httpMethod: string)
    ensures MethodFound(map[], methodName, httpMethod) <==> Strs.ToUpper(methodName) in HttpMethods
  {
  }

  /** A method mapped for `*` is found from every verb's tree. */
  lemma MethodFoundStar(methods: map<string, string>, methodName: string, httpMethod: string)
    requires "*" in methods && methods["*"] == methodName
    ensures MethodFound(methods, methodName, httpMethod)
  {
    var m := "*";
    assert m in methods && (m == "*" || m == httpMethod) && methods[m] == methodName;
  }

  /** The joined package path and name of a struct controller. */
  function ControllerPath(ct: ControllerType): string
  {
    Paths.Join([ct.pkgPath, ct.name])
  }

  /** A leaf `geturl` fills: a struct-controller route whose controller path
      ends with `controllName` and that serves `methodName`. */
  predicate LeafFinds(c: ControllerInfo, controllName: string, methodName: string, httpMethod: string)
  {
    && c.routerType == Beego
    && c.controllerType.Some?
    && Strs.HasSuffix(ControllerPath(c.controllerType.value), controllName)
    && MethodFound(c.methods, methodName, httpMethod)
  }

  /** Whether some leaf of the tree is one `geturl` fills. */
  predicate Reaches(t: UrlTree, controllName: string, methodName: string, httpMethod: string)
    decreases t
  {
    || (exists i | 0 <= i < |t.leaves| :: LeafFinds(t.leaves[i].runObject, controllName, methodName, httpMethod))
    || (exists i | 0 <= i < |t.fixrouters| :: Reaches(t.fixrouters[i].1, controllName, methodName, httpMethod))
    || (t.wildcard.Some? && Reaches(t.wildcard.value, controllName, methodName, httpMethod))
  }

  // --------------------------------------------------------------- leaf fill

  /** How filling a found leaf ends: a URL path with the params left over,
      a failure that ends `geturl` with nothing, a failed regular expression
      that moves on to the next leaf, or a panic.  Each carries the params as
      they are after the deletions it made. */
  datatype Fill = Filled(url: string, rest: map<string, string>) | Failed(rest: map<string, string>)
                | Skipped(rest: map<string, string>) | Panicked(msg: string)

  /** The wildcard loop: each wildcard's value, when present, is consumed and
      replaces the first placeholder; a `:` marker lets the next missing
      wildcard be skipped; any other missing wildcard fails. */
  function SkipFill(url: string, wildcards: seq<string>, params: map<string, string>, canskip: bool): (f: Fill)
    decreases |wildcards|
  {
    if |wildcards| == 0 then Filled(url, params)
    else
      var v := wildcards[0];
      if v == ":" then SkipFill(url, wildcards[1..], params, true)
      else if v in params then
        SkipFill(Strs.ReplaceFirst(url, Placeholder, params[v]), wildcards[1..], params - {v}, canskip)
      else if canskip then SkipFill(url, wildcards[1..], params, false)
      else Failed(params)
  }

  /** The `canskip` loop of `geturl`. */
  method FillWildcards(url: string, wildcards: seq<string>, params: map<string, string>) returns (f: Fill)
    ensures f == SkipFill(url, wildcards, params, false)
  {
    var canskip := false;
    var u := url;
    var ps := params;
    for i := 0 to |wildcards|
      invariant SkipFill(u, wildcards[i..], ps, canskip) == SkipFill(url, wildcards, params, false)
    {
      assert wildcards[i..][1..] == wildcards[i + 1..];
      var v := wildcards[i];
      if v == ":" {
        canskip := true;
        continue;
      }
      if v in ps {
        u := Strs.ReplaceFirst(u, Placeholder, ps[v]);
        ps := ps - {v};
      } else {
        if canskip {
          canskip := false;
          continue;
        }
        return Failed(ps);
      }
    }
    return Filled(u, ps);
  }

  /** A leaf without a regular expression: no wildcard drops the placeholder
      segment; one wildcard must have its value; `.`, `:path`, `:ext` take
      the two values when both are there; otherwise the wildcard loop. */
  function PlainFill(url: string, wildcards: seq<string>, params: map<string, string>): (f: Fill)
  {
    if |wildcards| == 0 then Filled(Strs.ReplaceFirst(url, "/" + Placeholder, ""), params)
    else if |wildcards| == 1 then
      if wildcards[0] in params then
        Filled(Strs.ReplaceFirst(url, Placeholder, params[wildcards[0]]), params - {wildcards[0]})
      else Failed(params)
    else if |wildcards| == 3 && wildcards[0] == "." && ":path" in params && ":ext" in params then
      Filled(Strs.ReplaceAll(url, Placeholder, params[":path"] + "." + params[":ext"]), params - {":path", ":ext"})
    else SkipFill(url, wildcards, params, false)
  }

  /** The scan over a leaf's regular expression, `^` and `$` trimmed: text
      outside a group is copied; the end of a group takes the value of the
      next wildcard and consumes it, or ends the scan when it has none; a
      group with no wildcard left to take is an out-of-range index. */
  function RegexScan(src: string, wildcards: seq<string>, i: nat, startreg: bool,
                     regurl: string, params: map<string, string>): Result<(string, map<string, string>)>
    decreases |src|
  {
    if |src| == 0 then Ok((regurl, params))
    else
      var v := src[0];
      if v == '(' then RegexScan(src[1..], wildcards, i, true, regurl, params)
      else if v == ')' then
        if i >= |wildcards| then Panic("runtime error: index out of range")
        else if wildcards[i] in params then
          RegexScan(src[1..], wildcards, i + 1, false, regurl + params[wildcards[i]], params - {wildcards[i]})
        else Ok((regurl, params))
      else if !startreg then RegexScan(src[1..], wildcards, i, startreg, regurl + [v], params)
      else RegexScan(src[1..], wildcards, i, startreg, regurl, params)
  }

  /** The scan loop of the regular-expression branch. */
  method ScanRegexp(src: string, wildcards: seq<string>, params: map<string, string>)
    returns (r: Result<(string, map<string, string>)>)
    ensures r == RegexScan(src, wildcards, 0, false, "", params)
  {
    var i := 0;
    var startreg := false;
    var regurl := "";
    var ps := params;
    for n := 0 to |src|
      invariant RegexScan(src[n..], wildcards, i, startreg, regurl, ps) == RegexScan(src, wildcards, 0, false, "", params)
    {
      assert src[n..][1..] == src[n + 1..];
      var v := src[n];
      if v == '(' {
        startreg := true;
        continue;
      } else if v == ')' {
        startreg := false;
        if i >= |wildcards| {
          return Panic("runtime error: index out of range");
        }
        if wildcards[i] in ps {
          regurl := regurl + ps[wildcards[i]];
          ps := ps - {wildcards[i]};
          i := i + 1;
        } else {
          return Ok((regurl, ps));
        }
      } else if !startreg {
        regurl := regurl + [v];
      }
    }
    return Ok((regurl, ps));
  }

  /** The pieces of the rebuilt path replace the placeholders one by one. */
  function FillPieces(url: string, pieces: seq<string>): string
    decreases |pieces|
  {
    if |pieces| == 0 then url else FillPieces(Strs.ReplaceFirst(url, Placeholder, pieces[0]), pieces[1..])
  }

  /** The placeholder loop of the regular-expression branch. */
  method FillPlaceholders(url: string, pieces: seq<string>) returns (u: string)
    ensures u == FillPieces(url, pieces)
  {
    u := url;
    for i := 0 to |pieces|
      invariant FillPieces(u, pieces[i..]) == FillPieces(url, pieces)
    {
      assert pieces[i..][1..] == pieces[i + 1..];
      u := Strs.ReplaceFirst(u, Placeholder, pieces[i]);
    }
  }

  /** A leaf with a regular expression: the path the scan builds must match
      it, and then its `/`-pieces fill the placeholders; otherwise the walk
      moves on to the next leaf with the params the scan consumed gone. */
  function RegexFill(url: string, re: Regexp, wildcards: seq<string>, params: map<string, string>): (f: Fill)
  {
    match RegexScan(Strs.Trim(re.source, {'^', '$'}), wildcards, 0, false, "", params)
    case Panic(msg) => Panicked(msg)
    case Ok((regurl, rest)) =>
      if re.matches(regurl) then Filled(FillPieces(url, Strs.Split(regurl, '/')), rest) else Skipped(rest)
  }

  /** How a found leaf is filled. */
  function LeafFill(url: string, l: Leaf, params: map<string, string>): Fill
  {
    if l.regexps.None? then PlainFill(url, l.wildcards, params) else RegexFill(url, l.regexps.value, l.wildcards, params)
  }

  /** The params a fill leaves, or the params before it for a panic. */
  function After(f: Fill, params: map<string, string>): map<string, string>
  {
    if f.Panicked? then params else f.rest
  }

  /** The fill of a found leaf, as the body of the leaf loop runs it. */
  method FillLeaf(url: string, l: Leaf, params: map<string, string>) returns (f: Fill)
    ensures f == LeafFill(url, l, params)
  {
    if l.regexps.None? {
      var w := l.wildcards;
      if |w| == 0 {
        return Filled(Strs.ReplaceFirst(url, "/" + Placeholder, ""), params);
      }
      if |w| == 1 {
        if w[0] in params {
          return Filled(Strs.ReplaceFirst(url, Placeholder, params[w[0]]), params - {w[0]});
        }
        return Failed(params);
      }
      if |w| == 3 && w[0] == "." && ":path" in params && ":ext" in params {
        return Filled(Strs.ReplaceAll(url, Placeholder, params[":path"] + "." + params[":ext"]), params - {":path", ":ext"});
      }
      f := FillWildcards(url, w, params);
    } else {
      var re := l.regexps.value;
      var scan := ScanRegexp(Strs.Trim(re.source, {'^', '$'}), l.wildcards, params);
      match scan
      case Panic(msg) => return Panicked(msg);
      case Ok((regurl, rest)) =>
        if re.matches(regurl) {
          var u := FillPlaceholders(url, Strs.Split(regurl, '/'));
          return Filled(u, rest);
        }
        return Skipped(rest);
    }
  }

  // ----------------------------------------------------- properties of fills

  /** The wildcard loop only deletes params. */
  lemma {:induction false} SkipFillConsumes(url: string, wildcards: seq<string>, params: map<string, string>, canskip: bool)
    ensures var f := SkipFill(url, wildcards, params, canskip);
            (f.Filled? || f.Failed?) && Consumed(f.rest, params)
    decreases |wildcards|
  {
    if |wildcards| > 0 {
      var v := wildcards[0];
      if v == ":" {
        SkipFillConsumes(url, wildcards[1..], params, true);
      } else if v in params {
        SkipFillConsumes(Strs.ReplaceFirst(url, Placeholder, params[v]), wildcards[1..], params - {v}, canskip);
      } else if canskip {
        SkipFillConsumes(url, wildcards[1..], params, false);
      }
    }
  }

  /** The regular-expression scan only deletes params. */
  lemma {:induction false} RegexScanConsumes(src: string, wildcards: seq<string>, i: nat, startreg: bool,
                                             regurl: string, params: map<string, string>)
    ensures var r := RegexScan(src, wildcards, i, startreg, regurl, params);
            r.Ok? ==> Consumed(r.value.1, params)
    decreases |src|
  {
    if |src| > 0 {
      var v := src[0];
      if v == '(' {
        RegexScanConsumes(src[1..], wildcards, i, true, regurl, params);
      } else if v == ')' {
        if i < |wildcards| && wildcards[i] in params {
          RegexScanConsumes(src[1..], wildcards, i + 1, false, regurl + params[wildcards[i]], params - {wildcards[i]});
        }
      } else if !startreg {
        RegexScanConsumes(src[1..], wildcards, i, startreg, regurl + [v], params);
      } else {
        RegexScanConsumes(src[1..], wildcards, i, startreg, regurl, params);
      }
    }
  }

  /** Filling a leaf only deletes params. */
  lemma LeafFillConsumes(url: string, l: Leaf, params: map<string, string>)
    ensures Consumed(After(LeafFill(url, l, params), params), params)
  {
    if l.regexps.None? {
      SkipFillConsumes(url, l.wildcards, params, false);
    } else {
      RegexScanConsumes(Strs.Trim(l.regexps.value.source, {'^', '$'}), l.wildcards, 0, false, "", params);
    }
  }

  /** The groups of a regular expression's source. */
  function Groups(src: string): nat
    decreases |src|
  {
    if |src| == 0 then 0 else (if src[0] == ')' then 1 else 0) + Groups(src[1..])
  }

  /** The scan panics only when the expression has more groups than the leaf
      has wildcards. */
  lemma {:induction false} RegexScanInRange(src: string, wildcards: seq<string>, i: nat, startreg: bool,
                                            regurl: string, params: map<string, string>)
    requires i + Groups(src) <= |wildcards|
    ensures RegexScan(src, wildcards, i, startreg, regurl, params).Ok?
    decreases |src|
  {
    if |src| > 0 {
      var v := src[0];
      if v == '(' {
        RegexScanInRange(src[1..], wildcards, i, true, regurl, params);
      } else if v == ')' {
        if wildcards[i] in params {
          RegexScanInRange(src[1..], wildcards, i + 1, false, regurl + params[wildcards[i]], params - {wildcards[i]});
        }
      } else if !startreg {
        RegexScanInRange(src[1..], wildcards, i, startreg, regurl + [v], params);
      } else {
        RegexScanInRange(src[1..], wildcards, i, startreg, regurl, params);
      }
    }
  }

  /** A single-wildcard leaf is filled exactly when its param is present; the
      param is then consumed, so it is not repeated in the query, and its
      value replaces the placeholder. */
  lemma SingleWildcard(url: string, w: string, params: map<string, string>)
    ensures PlainFill(url, [w], params).Filled? <==> w in params
    ensures w in params ==>
              PlainFill(url, [w], params) == Filled(Strs.ReplaceFirst(url, Placeholder, params[w]), params - {w})
              && w !in PlainFill(url, [w], params).rest
    ensures w !in params ==> PlainFill(url, [w], params) == Failed(params)
  {
  }

  /** The names a list of wildcards holds. */
  function Names(wildcards: seq<string>): set<string>
    decreases |wildcards|
  {
    if |wildcards| == 0 then {} else {wildcards[0]} + Names(wildcards[1..])
  }

  /** When every wildcard has a value, the wildcard loop fills the leaf and
      consumes exactly those params. */
  lemma {:induction false} SkipFillAllPresent(url: string, wildcards: seq<string>, params: map<string, string>, canskip: bool)
    requires forall i | 0 <= i < |wildcards| :: wildcards[i] != ":" && wildcards[i] in params
    requires forall i, j | 0 <= i < j < |wildcards| :: wildcards[i] != wildcards[j]
    ensures var f := SkipFill(url, wildcards, params, canskip);
            f.Filled? && f.rest == params - Names(wildcards)
    decreases |wildcards|
  {
    if |wildcards| > 0 {
      var v := wildcards[0];
      var tail := wildcards[1..];
      forall i | 0 <= i < |tail|
        ensures tail[i] != ":" && tail[i] in params - {v}
      {
        assert tail[i] == wildcards[i + 1];
      }
      SkipFillAllPresent(Strs.ReplaceFirst(url, Placeholder, params[v]), tail, params - {v}, canskip);
      assert params - {v} - Names(tail) == params - ({v} + Names(tail));
    }
  }

  /** A `:` marker lets the one missing wildcard after it be skipped, and
      the loop goes on as if neither were there. */
  lemma SkipAfterMarker(url: string, v: string, ws: seq<string>, params: map<string, string>)
    requires v != ":" && v !in params
    ensures SkipFill(url, [":", v] + ws, params, false) == SkipFill(url, ws, params, false)
  {
    assert ([":", v] + ws)[1..] == [v] + ws;
    assert ([v] + ws)[1..] == ws;
  }

  /** A `:` marker does not let two missing wildcards in a row be skipped. */
  lemma SkipOnlyOnce(url: string, a: string, b: string, ws: seq<string>, params: map<string, string>)
    requires a != ":" && b != ":" && a !in params && b !in params
    ensures SkipFill(url, [":", a, b] + ws, params, false) == Failed(params)
  {
    assert ([":", a, b] + ws)[1..] == [a, b] + ws;
    assert ([a, b] + ws)[1..] == [b] + ws;
    assert SkipFill(url, [a, b] + ws, params, true) == SkipFill(url, [b] + ws, params, false);
    assert ([b] + ws)[0] == b;
  }

  /** A fill that fails keeps the deletions it made before failing: with
      the values of the first wildcards given and the next one missing, the
      leaf fails and the given ones are gone from the params. */
  lemma {:induction false} FailedFillKeepsDeletions(url: string, present: seq<string>, missing: string,
                                                    params: map<string, string>, canskip: bool)
    requires forall i | 0 <= i < |present| :: present[i] != ":" && present[i] in params
    requires forall i, j | 0 <= i < j < |present| :: present[i] != present[j]
    requires missing != ":" && missing !in params && !canskip
    ensures SkipFill(url, present + [missing], params, canskip) == Failed(params - Names(present))
    decreases |present|
  {
    if |present| == 0 {
      assert present + [missing] == [missing];
      assert params - Names(present) == params;
    } else {
      var v := present[0];
      var tail := present[1..];
      assert (present + [missing])[1..] == tail + [missing];
      forall i | 0 <= i < |tail|
        ensures tail[i] != ":" && tail[i] in params - {v}
      {
        assert tail[i] == present[i + 1];
      }
      FailedFillKeepsDeletions(Strs.ReplaceFirst(url, Placeholder, params[v]), tail, missing, params - {v}, canskip);
      assert params - {v} - Names(tail) == params - ({v} + Names(tail));
    }
  }

  // ------------------------------------------------------------------ geturl

  /** Where the walk of a tree ends: a leaf filled with `path`, leaving
      `rest` for the query; nothing; or a panic. */
  datatype Walked = WalkHit(path: string, rest: map<string, string>) | WalkMiss | WalkCrash(msg: string)

  /** The walk of `geturl` from node `t` reached at `url`: the fixed
      children in order, then the wildcard child at the placeholder segment,
      then the leaves.  The first answer wins; the params each step leaves
      are the ones the next step starts from. */
  function Walk(t: UrlTree, url: string, controllName: string, methodName: string,
                params: map<string, string>, httpMethod: string): (Walked, map<string, string>)
    decreases t, 2
  {
    var (w, ps) := WalkFixed(t, 0, url, controllName, methodName, params, httpMethod);
    if w != WalkMiss then (w, ps)
    else
      var (w', ps') :=
        if t.wildcard.Some? then Walk(t.wildcard.value, Paths.Join([url, Placeholder]), controllName, methodName, ps, httpMethod)
        else (WalkMiss, ps);
      if w' != WalkMiss then (w', ps')
      else WalkLeaves(t.leaves, url, controllName, methodName, ps', httpMethod)
  }

  /** The fixed children of `t` from the `i`-th on. */
  function WalkFixed(t: UrlTree, i: nat, url: string, controllName: string, methodName: string,
                     params: map<string, string>, httpMethod: string): (Walked, map<string, string>)
    requires i <= |t.fixrouters|
    decreases t, 1, |t.fixrouters| - i
  {
    if i == |t.fixrouters| then (WalkMiss, params)
    else
      assert t.fixrouters[i] < t;
      var (w, ps) := Walk(t.fixrouters[i].1, Paths.Join([url, t.fixrouters[i].0]), controllName, methodName, params, httpMethod);
      if w != WalkMiss then (w, ps)
      else WalkFixed(t, i + 1, url, controllName, methodName, ps, httpMethod)
  }

  /** The leaves of a node: a leaf that serves the method is filled; a
      filled one answers, a failed one ends the node with nothing, a skipped
      one moves on to the next leaf. */
  function WalkLeaves(leaves: seq<Leaf>, url: string, controllName: string, methodName: string,
                      params: map<string, string>, httpMethod: string): (Walked, map<string, string>)
    decreases |leaves|
  {
    if |leaves| == 0 then (WalkMiss, params)
    else if !LeafFinds(leaves[0].runObject, controllName, methodName, httpMethod) then
      WalkLeaves(leaves[1..], url, controllName, methodName, params, httpMethod)
    else
      match LeafFill(url, leaves[0], params)
      case Filled(path, rest) => (WalkHit(path, rest), rest)
      case Failed(rest) => (WalkMiss, rest)
      case Skipped(rest) => WalkLeaves(leaves[1..], url, controllName, methodName, rest, httpMethod)
      case Panicked(msg) => (WalkCrash(msg), params)
  }

  /** What `geturl` returns for a walk, the query written in the order
      `order` of the params left. */
  function Answered(w: Walked, order: seq<string>): UrlResult
    requires w.WalkHit? ==> forall i | 0 <= i < |order| :: order[i] in w.rest
  {
    match w
    case WalkHit(path, rest) => Hit(path + QueryString(order, rest))
    case WalkMiss => Miss
    case WalkCrash(msg) => Crash(msg)
  }

  /** `geturl`: the walk of `t`, with the params shared by every step.  The
      order of the params in the query of a URL is returned as a ghost. */
  method GetUrl(t: UrlTree, url: string, controllName: string, methodName: string,
                params: map<string, string>, httpMethod: string)
    returns (r: UrlResult, params': map<string, string>, ghost order: seq<string>)
    ensures var (w, ps) := Walk(t, url, controllName, methodName, params, httpMethod);
            && params' == ps
            && (w.WalkHit? ==> IsOrder(order, w.rest))
            && r == Answered(w, order)
    ensures var (w, ps) := Walk(t, url, controllName, methodName, params, httpMethod);
            && params' == ps
            && (r == Miss <==> w == WalkMiss)
            && (w.WalkCrash? ==> r == Crash(w.msg))
            && (w.WalkHit? ==> r.Hit? && w.path <= r.url && (|w.rest| == 0 <==> r.url == w.path))
    decreases t, 0
  {
    order := [];
    params' := params;
    for i := 0 to |t.fixrouters|
      invariant WalkFixed(t, i, url, controllName, methodName, params', httpMethod)
                == WalkFixed(t, 0, url, controllName, methodName, params, httpMethod)
    {
      var (k, subtree) := t.fixrouters[i];
      assert t.fixrouters[i] < t;
      var u := Paths.Join([url, k]);
      var sub, ps, o := GetUrl(subtree, u, controllName, methodName, params', httpMethod);
      if sub != Miss {
        return sub, ps, o;
      }
      params' := ps;
    }
    if t.wildcard.Some? {
      var u := Paths.Join([url, Placeholder]);
      var sub, ps, o := GetUrl(t.wildcard.value, u, controllName, methodName, params', httpMethod);
      if sub != Miss {
        return sub, ps, o;
      }
      params' := ps;
    }
    ghost var fromLeaves := params';
    for i := 0 to |t.leaves|
      invariant WalkLeaves(t.leaves[i..], url, controllName, methodName, params', httpMethod)
                == WalkLeaves(t.leaves, url, controllName, methodName, fromLeaves, httpMethod)
    {
      assert t.leaves[i..][1..] == t.leaves[i + 1..];
      var l := t.leaves[i];
      var c := l.runObject;
      if c.routerType == Beego && c.controllerType.Some?
         && Strs.HasSuffix(ControllerPath(c.controllerType.value), controllName) {
        var find := FindMethod(c.methods, methodName, httpMethod);
        if find {
          var f := FillLeaf(url, l, params');
          match f
          case Filled(path, rest) =>
            var q, keys := ToUrl(rest);
            return Hit(path + q), rest, keys;
          case Failed(rest) =>
            return Miss, rest, [];
          case Skipped(rest) =>
            params' := rest;
          case Panicked(msg) =>
            return Crash(msg), params', [];
        }
      }
    }
    r := Miss;
  }

  // -------------------------------------------------------- properties of walks

  /** The walk only deletes params; it answers only from a tree with a
      serving leaf, and a tree without one answers nothing and leaves the
      params untouched. */
  lemma {:induction false} WalkSound(t: UrlTree, url: string, controllName: string, methodName: string,
                                     params: map<string, string>, httpMethod: string)
    ensures var (w, ps) := Walk(t, url, controllName, methodName, params, httpMethod);
            && Consumed(ps, params)
            && (w != WalkMiss ==> Reaches(t, controllName, methodName, httpMethod))
            && (!Reaches(t, controllName, methodName, httpMethod) ==> w == WalkMiss && ps == params)
    decreases t, 2
  {
    var (w, ps) := WalkFixed(t, 0, url, controllName, methodName, params, httpMethod);
    WalkFixedSound(t, 0, url, controllName, methodName, params, httpMethod);
    if w == WalkMiss {
      if t.wildcard.Some? {
        WalkSound(t.wildcard.value, Paths.Join([url, Placeholder]), controllName, methodName, ps, httpMethod);
      }
      var (w', ps') :=
        if t.wildcard.Some? then Walk(t.wildcard.value, Paths.Join([url, Placeholder]), controllName, methodName, ps, httpMethod)
        else (WalkMiss, ps);
      if w' == WalkMiss {
        WalkLeavesSound(t.leaves, url, controllName, methodName, ps', httpMethod);
      }
    }
  }

  lemma {:induction false} WalkFixedSound(t: UrlTree, i: nat, url: string, controllName: string, methodName: string,
                                          params: map<string, string>, httpMethod: string)
    requires i <= |t.fixrouters|
    ensures var (w, ps) := WalkFixed(t, i, url, controllName, methodName, params, httpMethod);
            && Consumed(ps, params)
            && (w != WalkMiss ==>
                  exists j | i <= j < |t.fixrouters| :: Reaches(t.fixrouters[j].1, controllName, methodName, httpMethod))
            && ((forall j | i <= j < |t.fixrouters| :: !Reaches(t.fixrouters[j].1, controllName, methodName, httpMethod))
                ==> w == WalkMiss && ps == params)
    decreases t, 1, |t.fixrouters| - i
  {
    if i < |t.fixrouters| {
      assert t.fixrouters[i] < t;
      var sub := t.fixrouters[i].1;
      var u := Paths.Join([url, t.fixrouters[i].0]);
      WalkSound(sub, u, controllName, methodName, params, httpMethod);
      var (w, ps) := Walk(sub, u, controllName, methodName, params, httpMethod);
      if w == WalkMiss {
        assert WalkFixed(t, i, url, controllName, methodName, params, httpMethod)
               == WalkFixed(t, i + 1, url, controllName, methodName, ps, httpMethod);
        WalkFixedSound(t, i + 1, url, controllName, methodName, ps, httpMethod);
        ConsumedTrans(WalkFixed(t, i + 1, url, controllName, methodName, ps, httpMethod).1, ps, params);
      } else {
        assert WalkFixed(t, i, url, controllName, methodName, params, httpMethod) == (w, ps);
        assert Reaches(t.fixrouters[i].1, controllName, methodName, httpMethod);
      }
    }
  }

  lemma {:induction false} WalkLeavesSound(leaves: seq<Leaf>, url: string, controllName: string, methodName: string,
                                           params: map<string, string>, httpMethod: string)
    ensures var (w, ps) := WalkLeaves(leaves, url, controllName, methodName, params, httpMethod);
            && Consumed(ps, params)
            && (w != WalkMiss ==>
                  exists j | 0 <= j < |leaves| :: LeafFinds(leaves[j].runObject, controllName, methodName, httpMethod))
            && ((forall j | 0 <= j < |leaves| :: !LeafFinds(leaves[j].runObject, controllName, methodName, httpMethod))
                ==> w == WalkMiss && ps == params)
    decreases |leaves|
  {
    if |leaves| > 0 {
      var tail := leaves[1..];
      assert forall j | 0 <= j < |tail| :: tail[j] == leaves[j + 1];
      if !LeafFinds(leaves[0].runObject, controllName, methodName, httpMethod) {
        WalkLeavesSound(tail, url, controllName, methodName, params, httpMethod);
      } else {
        LeafFillConsumes(url, leaves[0], params);
        var f := LeafFill(url, leaves[0], params);
        if f.Skipped? {
          WalkLeavesSound(tail, url, controllName, methodName, f.rest, httpMethod);
          ConsumedTrans(WalkLeaves(tail, url, controllName, methodName, f.rest, httpMethod).1, f.rest, params);
        }
      }
    }
  }

  /** A node whose only child is a wildcard child holding one leaf, that
      serves the method and has a single wildcard whose value is given — the
      `/user/:id` shape — answers the node's URL with the value in the
      wildcard's segment, and the query of the other params. */
  lemma SingleWildcardRoute(url: string, l: Leaf, controllName: string, methodName: string,
                            params: map<string, string>, httpMethod: string)
    requires LeafFinds(l.runObject, controllName, methodName, httpMethod)
    requires l.regexps.None? && |l.wildcards| == 1 && l.wildcards[0] in params
    ensures var t := UrlTree([], Some(UrlTree([], None, [l])), []);
            var w := l.wildcards[0];
            var rest := params - {w};
            Walk(t, url, controllName, methodName, params, httpMethod)
              == (WalkHit(Strs.ReplaceFirst(Paths.Join([url, Placeholder]), Placeholder, params[w]), rest), rest)
  {
    var w := l.wildcards[0];
    var u := Paths.Join([url, Placeholder]);
    var leaf := UrlTree([], None, [l]);
    var rest := params - {w};
    assert LeafFill(u, l, params) == Filled(Strs.ReplaceFirst(u, Placeholder, params[w]), rest);
    assert WalkLeaves([l], u, controllName, methodName, params, httpMethod)
           == (WalkHit(Strs.ReplaceFirst(u, Placeholder, params[w]), rest), rest);
    assert Walk(leaf, u, controllName, methodName, params, httpMethod)
           == (WalkHit(Strs.ReplaceFirst(u, Placeholder, params[w]), rest), rest);
  }

  // ------------------------------------------------------------------ URLFor

  /** `URLFor`'s endpoint: the controller name (the pieces before the last
      `.`, joined by `/`) and the method name (the last piece); nothing when
      the endpoint has no `.`. */
  function EndpointParts(endpoint: string): (r: Option<(string, string)>)
    ensures r.None? <==> |Strs.Split(endpoint, '.')| <= 1
  {
    var paths := Strs.Split(endpoint, '.');
    if |paths| <= 1 then None
    else Some((Strs.Join(paths[..|paths| - 1], '/'), paths[|paths| - 1]))
  }

  /** An endpoint without a `.` names nothing; the method name of one with a
      `.` holds no `.`. */
  lemma EndpointNeedsDot(endpoint: string)
    ensures '.' !in endpoint ==> EndpointParts(endpoint).None?
    ensures EndpointParts(endpoint).Some? ==> '.' !in EndpointParts(endpoint).value.1
  {
    if '.' !in endpoint {
      Strs.SplitNoSep(endpoint, '.');
    }
    Strs.SplitPiecesFree(endpoint, '.');
  }

  /** The params `URLFor` pairs from its values: each value at an even index
      is the key for the value after it, and a later pair overrides an
      earlier one with the same key. */
  function PairUp(values: seq<string>): map<string, string>
    requires |values| % 2 == 0
  {
    if |values| == 0 then map[]
    else PairUp(values[..|values| - 2])[values[|values| - 2] := values[|values| - 1]]
  }

  /** The pairing loop of `URLFor`. */
  method PairValues(values: seq<string>) returns (params: map<string, string>)
    requires |values| % 2 == 0
    ensures params == PairUp(values)
  {
    params := map[];
    var key := "";
    for k := 0 to |values|
      invariant k % 2 == 0 ==> params == PairUp(values[..k])
      invariant k % 2 == 1 ==> params == PairUp(values[..k - 1]) && key == values[k - 1]
    {
      if k % 2 == 0 {
        key := values[k];
      } else {
        assert values[..k + 1][..k - 1] == values[..k - 1];
        params := params[key := values[k]];
      }
    }
    assert values[..|values|] == values;
  }

  /** Every key is paired with the value after its last occurrence as a key,
      and nothing else is a key. */
  lemma {:induction false} PairUpValues(values: seq<string>)
    requires |values| % 2 == 0
    ensures forall k | k in PairUp(values) :: exists j | 0 <= j < |values| / 2 :: values[2 * j] == k
    ensures forall j | 0 <= j < |values| / 2 ::
              (forall j' | j < j' < |values| / 2 :: values[2 * j'] != values[2 * j]) ==>
                values[2 * j] in PairUp(values) && PairUp(values)[values[2 * j]] == values[2 * j + 1]
    decreases |values|
  {
    if |values| > 0 {
      var init := values[..|values| - 2];
      PairUpValues(init);
      var n := |values| / 2;
      forall k | k in PairUp(values)
        ensures exists j | 0 <= j < n :: values[2 * j] == k
      {
        if k == values[|values| - 2] {
          assert values[2 * (n - 1)] == k;
        } else {
          assert PairUp(values) == PairUp(init)[values[|values| - 2] := values[|values| - 1]];
          assert k in PairUp(init);
          var j :| 0 <= j < |init| / 2 && init[2 * j] == k;
          assert values[2 * j] == k;
        }
      }
      forall j | 0 <= j < n && (forall j' | j < j' < n :: values[2 * j'] != values[2 * j])
        ensures values[2 * j] in PairUp(values) && PairUp(values)[values[2 * j]] == values[2 * j + 1]
      {
        if j < n - 1 {
          assert init[2 * j] == values[2 * j] && init[2 * j + 1] == values[2 * j + 1];
          assert values[2 * (n - 1)] != values[2 * j];
          forall j' | j < j' < |init| / 2
            ensures init[2 * j'] != init[2 * j]
          {
            assert init[2 * j'] == values[2 * j'];
          }
        }
      }
    }
  }

  /** The reverse lookup of `URLFor` over the trees of `verbs`, in that
      order, the params each walk leaves handed to the next: the first walk
      that answers, with its verb, or none. */
  function WalkTrees(verbs: seq<string>, trees: map<string, UrlTree>, controllName: string, methodName: string,
                     params: map<string, string>): (Option<(string, Walked)>, map<string, string>)
    requires forall i | 0 <= i < |verbs| :: verbs[i] in trees
    decreases |verbs|
  {
    if |verbs| == 0 then (None, params)
    else
      var (w, ps) := Walk(trees[verbs[0]], "/", controllName, methodName, params, verbs[0]);
      if w != WalkMiss then (Some((verbs[0], w)), ps)
      else WalkTrees(verbs[1..], trees, controllName, methodName, ps)
  }

  /** One more tree walked after trees that answered nothing. */
  lemma {:induction false} WalkTreesSnoc(verbs: seq<string>, v: string, trees: map<string, UrlTree>,
                                         controllName: string, methodName: string, params: map<string, string>)
    requires forall i | 0 <= i < |verbs| :: verbs[i] in trees
    requires v in trees
    requires WalkTrees(verbs, trees, controllName, methodName, params).0.None?
    ensures var ps := WalkTrees(verbs, trees, controllName, methodName, params).1;
            var (w, ps') := Walk(trees[v], "/", controllName, methodName, ps, v);
            WalkTrees(verbs + [v], trees, controllName, methodName, params)
              == (if w != WalkMiss then (Some((v, w)), ps') else (None, ps'))
    decreases |verbs|
  {
    if |verbs| == 0 {
      assert [v][1..] == [];
    } else {
      assert (verbs + [v])[1..] == verbs[1..] + [v];
      var (w, ps) := Walk(trees[verbs[0]], "/", controllName, methodName, params, verbs[0]);
      WalkTreesSnoc(verbs[1..], v, trees, controllName, methodName, ps);
    }
  }

  /** The lookup answers only from the tree of a verb walked that has a
      serving leaf, and answers nothing when no tree walked has one. */
  lemma {:induction false} WalkTreesSound(verbs: seq<string>, trees: map<string, UrlTree>,
                                          controllName: string, methodName: string, params: map<string, string>)
    requires forall i | 0 <= i < |verbs| :: verbs[i] in trees
    ensures var (res, ps) := WalkTrees(verbs, trees, controllName, methodName, params);
            && Consumed(ps, params)
            && (res.Some? ==> res.value.0 in verbs && Reaches(trees[res.value.0], controllName, methodName, res.value.0))
            && ((forall i | 0 <= i < |verbs| :: !Reaches(trees[verbs[i]], controllName, methodName, verbs[i]))
                ==> res.None?)
    decreases |verbs|
  {
    if |verbs| > 0 {
      var v := verbs[0];
      WalkSound(trees[v], "/", controllName, methodName, params, v);
      var (w, ps) := Walk(trees[v], "/", controllName, methodName, params, v);
      if w == WalkMiss {
        var tail := verbs[1..];
        assert forall i | 0 <= i < |tail| :: tail[i] == verbs[i + 1];
        WalkTreesSound(tail, trees, controllName, methodName, ps);
        ConsumedTrans(WalkTrees(tail, trees, controllName, methodName, ps).1, ps, params);
      }
    }
  }
}
