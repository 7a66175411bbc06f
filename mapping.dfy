/** The verb-to-method maps of struct-controller and function routes: the
    mapping-string syntax of `Add` ("get,post:ApiFunc;put:X") and the map
    `AddMethod` builds. */
module Mapping {
  import Strs
  import opened Routes

  /** A verb token of a mapping is "*" or, ignoring case, a supported verb. */
  predicate VerbToken(m: string)
  {
    m == "*" || Strs.ToUpper(m) in HttpMethods
  }

  /** Maps each comma-listed verb token of one `;`-piece to its method name. */
  function AddVerbs(tokens: seq<string>, piece: string, target: string, ctrl: ControllerType,
                    acc: map<string, string>): Result<map<string, string>>
    decreases |tokens|
  {
    if |tokens| == 0 then Ok(acc)
    else if !VerbToken(tokens[0]) then
      Panic(piece + " is an invalid method mapping. Method doesn't exist " + tokens[0])
    else if target !in ctrl.methods then
      Panic("'" + target + "' method doesn't exist in the controller " + ctrl.name)
    else AddVerbs(tokens[1..], piece, target, ctrl, acc[Strs.ToUpper(tokens[0]) := target])
  }

  /** One `;`-piece: it must have exactly one `:`. */
  function ParsePiece(piece: string, ctrl: ControllerType, acc: map<string, string>): Result<map<string, string>>
  {
    var colon := Strs.Split(piece, ':');
    if |colon| != 2 then Panic("method mapping format is invalid")
    else AddVerbs(Strs.Split(colon[0], ','), piece, colon[1], ctrl, acc)
  }

  function ParsePieces(pieces: seq<string>, ctrl: ControllerType, acc: map<string, string>): Result<map<string, string>>
    decreases |pieces|
  {
    if |pieces| == 0 then Ok(acc)
    else match ParsePiece(pieces[0], ctrl, acc)
      case Panic(msg) => Panic(msg)
      case Ok(acc') => ParsePieces(pieces[1..], ctrl, acc')
  }

  /** The methods map `Add` builds from its optional mapping argument, or the
      panic it raises. */
  function ParseMapping(mappingMethods: seq<string>, ctrl: ControllerType): Result<map<string, string>>
  {
    if |mappingMethods| == 0 then Ok(map[])
    else ParsePieces(Strs.Split(mappingMethods[0], ';'), ctrl, map[])
  }

  /** The parsing loops of `Add`, which accumulate the methods map piece by piece. */
  method ParseMethodMapping(mappingMethods: seq<string>, ctrl: ControllerType) returns (r: Result<map<string, string>>)
    ensures r == ParseMapping(mappingMethods, ctrl)
  {
    var methods: map<string, string> := map[];
    if |mappingMethods| > 0 {
      var semi := Strs.Split(mappingMethods[0], ';');
      var i := 0;
      while i < |semi|
        invariant 0 <= i <= |semi|
        invariant ParsePieces(semi[i..], ctrl, methods) == ParseMapping(mappingMethods, ctrl)
      {
        var v := semi[i];
        var colon := Strs.Split(v, ':');
        if |colon| != 2 {
          return Panic("method mapping format is invalid");
        }
        var comma := Strs.Split(colon[0], ',');
        ghost var start := methods;
        assert semi[i..][1..] == semi[i + 1..];
        var j := 0;
        while j < |comma|
          invariant 0 <= j <= |comma|
          invariant AddVerbs(comma[j..], v, colon[1], ctrl, methods) == ParsePiece(v, ctrl, start)
        {
          var m := comma[j];
          if m == "*" || Strs.ToUpper(m) in HttpMethods {
            if colon[1] in ctrl.methods {
              methods := methods[Strs.ToUpper(m) := colon[1]];
            } else {
              return Panic("'" + colon[1] + "' method doesn't exist in the controller " + ctrl.name);
            }
          } else {
            return Panic(v + " is an invalid method mapping. Method doesn't exist " + m);
          }
          assert comma[j..][1..] == comma[j + 1..];
          j := j + 1;
        }
        i := i + 1;
      }
    }
    return Ok(methods);
  }

  /** A piece `Add` accepts: exactly one `:`, only verb tokens before it, and a
      method of the controller after it. */
  predicate WellFormedPiece(piece: string, ctrl: ControllerType)
  {
    var colon := Strs.Split(piece, ':');
    && |colon| == 2
    && (forall i | 0 <= i < |Strs.Split(colon[0], ',')| :: VerbToken(Strs.Split(colon[0], ',')[i]))
    && colon[1] in ctrl.methods
  }

  /** Every key is "*" or a supported verb, and every value a controller method. */
  predicate ValidMethods(m: map<string, string>, ctrl: ControllerType)
  {
    forall k | k in m :: (k == "*" || k in HttpMethods) && m[k] in ctrl.methods
  }

  /** The upper-cased tokens. */
  function Uppers(tokens: seq<string>): set<string>
  {
    if |tokens| == 0 then {} else {Strs.ToUpper(tokens[0])} + Uppers(tokens[1..])
  }

  /** The upper-cased verb tokens of a piece. */
  function PieceVerbs(piece: string): set<string>
  {
    Uppers(Strs.Split(Strs.Split(piece, ':')[0], ','))
  }

  lemma UpperStar()
    ensures Strs.ToUpper("*") == "*"
  {
    var u := Strs.ToUpper("*");
    assert |u| == 1 && u[0] == '*';
  }

  lemma {:induction false} AddVerbsOk(tokens: seq<string>, piece: string, target: string,
                                      ctrl: ControllerType, acc: map<string, string>)
    ensures AddVerbs(tokens, piece, target, ctrl, acc).Ok? <==>
            (forall i | 0 <= i < |tokens| :: VerbToken(tokens[i])) && (|tokens| == 0 || target in ctrl.methods)
    decreases |tokens|
  {
    if |tokens| > 0 && VerbToken(tokens[0]) && target in ctrl.methods {
      AddVerbsOk(tokens[1..], piece, target, ctrl, acc[Strs.ToUpper(tokens[0]) := target]);
      assert forall i | 1 <= i < |tokens| :: tokens[i] == tokens[1..][i - 1];
    }
  }

  lemma {:induction false} AddVerbsValue(tokens: seq<string>, piece: string, target: string,
                                         ctrl: ControllerType, acc: map<string, string>)
    requires ValidMethods(acc, ctrl)
    requires AddVerbs(tokens, piece, target, ctrl, acc).Ok?
    ensures var m := AddVerbs(tokens, piece, target, ctrl, acc).value;
            && ValidMethods(m, ctrl)
            && m.Keys == acc.Keys + Uppers(tokens)
            && (forall k | k in Uppers(tokens) :: m[k] == target)
            && (forall k | k in acc && k !in Uppers(tokens) :: m[k] == acc[k])
    decreases |tokens|
  {
    if |tokens| > 0 {
      if tokens[0] == "*" { UpperStar(); }
      AddVerbsValue(tokens[1..], piece, target, ctrl, acc[Strs.ToUpper(tokens[0]) := target]);
    }
  }

  lemma {:induction false} ParsePiecesSpec(pieces: seq<string>, ctrl: ControllerType, acc: map<string, string>)
    requires ValidMethods(acc, ctrl)
    ensures ParsePieces(pieces, ctrl, acc).Ok? <==> forall p | p in pieces :: WellFormedPiece(p, ctrl)
    ensures ParsePieces(pieces, ctrl, acc).Ok? ==>
            var m := ParsePieces(pieces, ctrl, acc).value;
            && ValidMethods(m, ctrl)
            && acc.Keys <= m.Keys
            && (forall p | p in pieces :: PieceVerbs(p) <= m.Keys)
    decreases |pieces|
  {
    if |pieces| > 0 {
      var p := pieces[0];
      var colon := Strs.Split(p, ':');
      assert forall q | q in pieces :: q == p || q in pieces[1..];
      if |colon| == 2 {
        var tokens := Strs.Split(colon[0], ',');
        AddVerbsOk(tokens, p, colon[1], ctrl, acc);
        var r := AddVerbs(tokens, p, colon[1], ctrl, acc);
        assert ParsePiece(p, ctrl, acc) == r;
        assert WellFormedPiece(p, ctrl) <==> r.Ok?;
        if r.Ok? {
          AddVerbsValue(tokens, p, colon[1], ctrl, acc);
          ParsePiecesSpec(pieces[1..], ctrl, r.value);
        }
      } else {
        assert ParsePiece(p, ctrl, acc).Panic? && !WellFormedPiece(p, ctrl);
      }
    }
  }

  /** The method a well-formed piece maps its verbs to: the text after its `:`. */
  function Target(piece: string): string
  {
    var colon := Strs.Split(piece, ':');
    if |colon| == 2 then colon[1] else ""
  }

  /** The index of the last piece that lists verb `k`, or -1 when none does. */
  function LastListing(pieces: seq<string>, k: string): (j: int)
    ensures -1 <= j < |pieces|
    ensures j >= 0 ==> k in PieceVerbs(pieces[j])
    ensures forall i | j < i < |pieces| :: k !in PieceVerbs(pieces[i])
    decreases |pieces|
  {
    if |pieces| == 0 then -1
    else if k in PieceVerbs(pieces[|pieces| - 1]) then |pieces| - 1
    else LastListing(pieces[..|pieces| - 1], k)
  }

  /** Parsing one more piece continues from the map the earlier pieces gave. */
  lemma {:induction false} ParsePiecesSnoc(pieces: seq<string>, p: string, ctrl: ControllerType, acc: map<string, string>)
    ensures ParsePieces(pieces + [p], ctrl, acc) ==
            match ParsePieces(pieces, ctrl, acc)
            case Panic(msg) => Panic(msg)
            case Ok(a) => ParsePiece(p, ctrl, a)
    decreases |pieces|
  {
    if |pieces| == 0 {
      assert [p][1..] == [];
      assert pieces + [p] == [p];
      match ParsePiece(p, ctrl, acc)
      case Panic(_) =>
      case Ok(_) =>
    } else {
      assert (pieces + [p])[0] == pieces[0];
      assert (pieces + [p])[1..] == pieces[1..] + [p];
      match ParsePiece(pieces[0], ctrl, acc)
      case Panic(_) =>
      case Ok(a) => ParsePiecesSnoc(pieces[1..], p, ctrl, a);
    }
  }

  /** The map the pieces build: a key is there iff it was there before or a
      piece lists it, and a listed key maps to the method of the last piece
      that lists it. */
  lemma {:induction false} ParsedTargets(pieces: seq<string>, ctrl: ControllerType, acc: map<string, string>)
    requires ValidMethods(acc, ctrl)
    requires ParsePieces(pieces, ctrl, acc).Ok?
    ensures var m := ParsePieces(pieces, ctrl, acc).value;
            forall k :: k in m <==> k in acc || LastListing(pieces, k) >= 0
    ensures var m := ParsePieces(pieces, ctrl, acc).value;
            forall k | k in m ::
              m[k] == if LastListing(pieces, k) >= 0 then Target(pieces[LastListing(pieces, k)]) else acc[k]
    decreases |pieces|
  {
    if |pieces| > 0 {
      var init := pieces[..|pieces| - 1];
      var p := pieces[|pieces| - 1];
      assert init + [p] == pieces;
      ParsePiecesSnoc(init, p, ctrl, acc);
      assert ParsePieces(init, ctrl, acc).Ok?;
      var a := ParsePieces(init, ctrl, acc).value;
      ParsedTargets(init, ctrl, acc);
      ParsePiecesSpec(init, ctrl, acc);
      var colon := Strs.Split(p, ':');
      assert |colon| == 2;
      var tokens := Strs.Split(colon[0], ',');
      AddVerbsValue(tokens, p, colon[1], ctrl, a);
      var m := ParsePieces(pieces, ctrl, acc).value;
      assert m == AddVerbs(tokens, p, colon[1], ctrl, a).value;
      TargetsStep(init, p, acc, a, m);
    }
  }

  /** One more piece: its verbs now map to its target, and the other keys
      keep what the earlier pieces gave them. */
  lemma TargetsStep(init: seq<string>, p: string, acc: map<string, string>, a: map<string, string>, m: map<string, string>)
    requires forall k :: k in a <==> k in acc || LastListing(init, k) >= 0
    requires forall k | k in a ::
               a[k] == if LastListing(init, k) >= 0 then Target(init[LastListing(init, k)]) else acc[k]
    requires m.Keys == a.Keys + PieceVerbs(p)
    requires forall k | k in PieceVerbs(p) :: m[k] == Target(p)
    requires forall k | k in a && k !in PieceVerbs(p) :: m[k] == a[k]
    ensures var pieces := init + [p];
            forall k :: k in m <==> k in acc || LastListing(pieces, k) >= 0
    ensures var pieces := init + [p];
            forall k | k in m ::
              m[k] == if LastListing(pieces, k) >= 0 then Target(pieces[LastListing(pieces, k)]) else acc[k]
  {
    var pieces := init + [p];
    assert pieces[..|pieces| - 1] == init;
    forall k
      ensures LastListing(pieces, k) == if k in PieceVerbs(p) then |init| else LastListing(init, k)
    {
    }
    forall j | 0 <= j < |init|
      ensures pieces[j] == init[j]
    {
    }
  }

  /** `Add` accepts a mapping exactly when every `;`-piece is well formed; an
      accepted mapping yields a non-empty map whose keys are "*" or supported
      verbs, whose values are controller methods, and which maps every listed
      verb, upper-cased. */
  lemma ParseMappingSpec(mapping: string, ctrl: ControllerType)
    ensures ParseMapping([mapping], ctrl).Ok? <==>
            forall p | p in Strs.Split(mapping, ';') :: WellFormedPiece(p, ctrl)
    ensures ParseMapping([mapping], ctrl).Ok? ==>
            var m := ParseMapping([mapping], ctrl).value;
            && |m| > 0
            && ValidMethods(m, ctrl)
            && (forall p | p in Strs.Split(mapping, ';') :: PieceVerbs(p) <= m.Keys)
    ensures ParseMapping([mapping], ctrl).Ok? ==>
            var m := ParseMapping([mapping], ctrl).value;
            var pieces := Strs.Split(mapping, ';');
            && (forall k :: k in m <==> LastListing(pieces, k) >= 0)
            && (forall k | k in m :: m[k] == Target(pieces[LastListing(pieces, k)]))
  {
    var pieces := Strs.Split(mapping, ';');
    var r := ParsePieces(pieces, ctrl, map[]);
    assert ParseMapping([mapping], ctrl) == r;
    ParsePiecesSpec(pieces, ctrl, map[]);
    if r.Ok? {
      ParsedTargets(pieces, ctrl, map[]);
      ListedNonEmpty(pieces, r.value);
    }
  }

  /** A map holding the verbs of some piece is not empty: every piece lists
      at least one token. */
  lemma ListedNonEmpty(pieces: seq<string>, m: map<string, string>)
    requires |pieces| > 0 && forall p | p in pieces :: PieceVerbs(p) <= m.Keys
    ensures |m| > 0
  {
    var t := Strs.Split(Strs.Split(pieces[0], ':')[0], ',')[0];
    assert Strs.ToUpper(t) in PieceVerbs(pieces[0]);
    assert pieces[0] in pieces;
  }

  /** An empty mapping string, or one ending in `;`, panics: its last piece has no `:`. */
  lemma {:induction false} TrailingSemicolonPanics(mapping: string, ctrl: ControllerType)
    requires mapping == "" || mapping[|mapping| - 1] == ';'
    ensures ParseMapping([mapping], ctrl).Panic?
  {
    var pieces := Strs.Split(mapping, ';');
    ParsePiecesSpec(pieces, ctrl, map[]);
    var last: string;
    if mapping == "" {
      last := pieces[0];
    } else {
      Strs.SplitTrailingSep(mapping, ';');
      last := pieces[|pieces| - 1];
    }
    assert last == "" && last in pieces;
    assert Strs.Split(last, ':') == [""];
    assert !WellFormedPiece(last, ctrl);
  }

  /** With no mapping argument the map is empty. */
  lemma NoMappingEmpty(ctrl: ControllerType)
    ensures ParseMapping([], ctrl) == Ok(map[])
  {
  }

  /** The methods map of a function route registered by `AddMethod`: "*"
      sends every supported verb to itself, any other accepted verb maps its
      upper-cased self to itself, and anything else panics. */
  function AddMethodMap(verb: string): (r: Result<map<string, string>>)
    ensures r.Panic? <==> !VerbToken(verb)
    ensures r.Panic? ==> r.msg == "not support http method: " + verb
    ensures r.Ok? ==> "*" !in r.value && forall k | k in r.value :: r.value[k] == k && k in HttpMethods
    ensures r.Ok? ==> r.value.Keys == if verb == "*" then HttpMethods else {Strs.ToUpper(verb)}
  {
    if verb != "*" && Strs.ToUpper(verb) !in HttpMethods then Panic("not support http method: " + verb)
    else if verb == "*" then Ok(map v | v in HttpMethods :: v)
    else Ok(map[Strs.ToUpper(verb) := Strs.ToUpper(verb)])
  }

  /** The map-building loop of `AddMethod`. */
  method BuildMethodMap(verb: string) returns (r: Result<map<string, string>>)
    ensures r == AddMethodMap(verb)
  {
    if verb != "*" && Strs.ToUpper(verb) !in HttpMethods {
      return Panic("not support http method: " + verb);
    }
    var methods: map<string, string> := map[];
    if verb == "*" {
      var rest := HttpMethods;
      while rest != {}
        invariant rest <= HttpMethods
        invariant methods == map v | v in HttpMethods - rest :: v
        decreases rest
      {
        var v :| v in rest;
        methods := methods[v := v];
        rest := rest - {v};
      }
      assert HttpMethods - rest == HttpMethods;
    } else {
      methods := methods[Strs.ToUpper(verb) := Strs.ToUpper(verb)];
    }
    return Ok(methods);
  }
}
