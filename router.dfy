/** The Router: a routing table from URL patterns to parameter arrays,
    the first-match lookup that fills the current parameters, and the
    string transforms that turn route parameters into class and method
    names. `preg_match` is outside the model: a `Matcher` gives, for a
    pattern and a URL, the capture array of a match, None when there is
    no match, or the error its warning is turned into (a malformed
    pattern). */
module Router {
  import opened Outcomes
  import opened OrderedMap
  import opened PhpStrings
  import opened PhpValues

  /** `preg_match($pattern, $url, $matches)`: the matches on success. */
  type Matcher = (string, string) -> Result<Option<OMap<string>>>

  // ---------------------------------------------------------------- name transforms

  /** The characters after which `ucwords` starts a new word by default. */
  predicate IsWordDelimiter(c: char)
  {
    c == ' ' || c == '\t' || c == '\r' || c == '\n' || c as int == 12 || c as int == 11
  }

  /** `ucwords($s)`: the first character and every character after a
      delimiter in upper case. */
  function UcWords(s: string): (r: string)
    ensures |r| == |s|
  {
    seq(|s|, i requires 0 <= i < |s| => if i == 0 || IsWordDelimiter(s[i - 1]) then ToUpper(s[i]) else s[i])
  }

  /** `lcfirst($s)`. */
  function LcFirst(s: string): (r: string)
    ensures |r| == |s| && (|s| > 0 ==> r[0] == ToLower(s[0]) && r[1..] == s[1..])
  {
    if |s| == 0 then s else [ToLower(s[0])] + s[1..]
  }

  /** `transformToUpperCamelCase`: '-' becomes ' ', `ucwords`, then the
      spaces are removed. The result is the left-to-right scan `CamelScan`
      and holds no separator. */
  function UpperCamel(s: string): (r: string)
    ensures r == CamelScan(s, true)
    ensures '-' !in r && ' ' !in r
  {
    var t := ReplaceChar(s, '-', ' ');
    var u := UcWords(t);
    assert u == UcFrom(t, true);
    UcFromMatchesScan(s, true);
    assert '-' !in u;
    RemoveCharRemoves(u, ' ');
    RemoveCharSubset(u, ' ');
    RemoveChar(u, ' ')
  }

  /** `transformToLowerCamelCase`: the scan with its first character
      lowered; still no separator. */
  function LowerCamel(s: string): (r: string)
    ensures r == LcFirst(CamelScan(s, true))
    ensures '-' !in r && ' ' !in r
  {
    var u := UpperCamel(s);
    assert forall i :: 0 <= i < |LcFirst(u)| ==> LcFirst(u)[i] == (if i == 0 then ToLower(u[0]) else u[i]);
    LcFirst(u)
  }

  /** A left-to-right reading of the same transform: '-' and ' ' are
      dropped and start a new word; any other character is kept, in upper
      case when it starts a word; the other `ucwords` delimiters stay and
      start a new word too. */
  function CamelScan(s: string, startsWord: bool): string
  {
    if |s| == 0 then ""
    else if s[0] == '-' || s[0] == ' ' then CamelScan(s[1..], true)
    else [if startsWord then ToUpper(s[0]) else s[0]] + CamelScan(s[1..], IsWordDelimiter(s[0]))
  }

  /** `ucwords` from a position: `startsWord` says whether the first
      character starts a word. */
  function UcFrom(s: string, startsWord: bool): (r: string)
    ensures |r| == |s|
  {
    seq(|s|, i requires 0 <= i < |s| =>
      if (i == 0 && startsWord) || (i > 0 && IsWordDelimiter(s[i - 1])) then ToUpper(s[i]) else s[i])
  }

  lemma {:induction false} UcFromMatchesScan(s: string, startsWord: bool)
    ensures RemoveChar(UcFrom(ReplaceChar(s, '-', ' '), startsWord), ' ') == CamelScan(s, startsWord)
    decreases |s|
  {
    if |s| > 0 {
      var t := ReplaceChar(s, '-', ' ');
      var u := UcFrom(t, startsWord);
      assert ReplaceChar(s, '-', ' ')[1..] == ReplaceChar(s[1..], '-', ' ');
      assert u[1..] == UcFrom(t[1..], IsWordDelimiter(t[0]));
      UcFromMatchesScan(s[1..], IsWordDelimiter(t[0]));
      assert RemoveChar(u, ' ') == (if u[0] == ' ' then "" else [u[0]]) + RemoveChar(u[1..], ' ');
    }
  }

  /** `RemoveChar` leaves no occurrence of the character. */
  lemma {:induction false} RemoveCharRemoves(s: string, c: char)
    ensures c !in RemoveChar(s, c)
  {
    if |s| > 0 {
      RemoveCharRemoves(s[1..], c);
    }
  }

  lemma {:induction false} RemoveCharSubset(s: string, c: char)
    ensures forall x :: x in RemoveChar(s, c) ==> x in s
  {
    if |s| > 0 {
      RemoveCharSubset(s[1..], c);
    }
  }

  /** An example: `post-index` names the controller
      `PostIndex` and the action `postIndex`. */
  lemma PostIndexExample(s: string)
    requires s == "post-index"
    ensures UpperCamel(s) == "PostIndex"
    ensures LowerCamel(s) == "postIndex"
  {
    PostIndexScan(s);
    var u := UpperCamel(s);
    assert LcFirst(u) == [ToLower(u[0])] + u[1..];
    assert ToLower(u[0]) == 'p';
  }

  /** A word with no separator and no `ucwords` delimiter in it. */
  predicate PlainWord(w: string)
  {
    forall i :: 0 <= i < |w| ==> w[i] != '-' && w[i] != ' ' && !IsWordDelimiter(w[i])
  }

  /** A plain word is kept, its first letter raised when it starts a word. */
  lemma {:induction false} PlainWordScan(w: string, startsWord: bool)
    requires PlainWord(w)
    ensures CamelScan(w, startsWord) == if |w| == 0 then "" else [if startsWord then ToUpper(w[0]) else w[0]] + w[1..]
    decreases |w|
  {
    if |w| > 0 {
      assert PlainWord(w[1..]) by {
        assert forall i :: 0 <= i < |w[1..]| ==> w[1..][i] == w[i + 1];
      }
      PlainWordScan(w[1..], false);
      if |w| > 1 {
        assert w[1..][1..] == w[2..];
      }
    }
  }

  /** A hyphen between a plain word and the rest is dropped and the rest
      starts a new word. */
  lemma {:induction false} HyphenJoins(a: string, b: string, startsWord: bool)
    requires PlainWord(a)
    ensures CamelScan(a + "-" + b, startsWord) == CamelScan(a, startsWord) + CamelScan(b, true)
    decreases |a|
  {
    if |a| == 0 {
      assert (a + "-" + b)[1..] == b;
    } else {
      assert (a + "-" + b)[1..] == a[1..] + "-" + b;
      assert PlainWord(a[1..]) by {
        assert forall i :: 0 <= i < |a[1..]| ==> a[1..][i] == a[i + 1];
      }
      HyphenJoins(a[1..], b, false);
    }
  }

  /** Two plain words joined by a hyphen become one name with both
      first letters raised. */
  lemma HyphenatedPair(a: string, b: string)
    requires PlainWord(a) && PlainWord(b) && |a| > 0 && |b| > 0
    ensures CamelScan(a + "-" + b, true) == [ToUpper(a[0])] + a[1..] + [ToUpper(b[0])] + b[1..]
  {
    HyphenJoins(a, b, true);
    PlainWordScan(a, true);
    PlainWordScan(b, true);
  }

  lemma PostIndexScan(s: string)
    requires s == "post-index"
    ensures CamelScan(s, true) == "PostIndex"
  {
    var a, b := "post", "index";
    assert s == a + "-" + b;
    HyphenatedPair(a, b);
    assert [ToUpper(a[0])] + a[1..] + [ToUpper(b[0])] + b[1..] == "PostIndex";
  }

  // ---------------------------------------------------------------- matching

  /** What `preg_match($route, $url, $matches)` answers for a stored
      pattern. A pattern that is integer text is stored under an int key,
      and an int is no string under strict types: TypeError. */
  function RouteAnswer(matcher: Matcher, route: string, url: string): Result<Option<OMap<string>>>
  {
    if IsIntKey(route) then Err(TypeError) else matcher(route, url)
  }

  /** The first route, in table order, whose pattern matches `url` or
      makes `preg_match` fail: where the scan of `match` stops. */
  function FirstMatch(routes: OMap<PArray>, matcher: Matcher, url: string): (r: Option<nat>)
    ensures r.Some? ==> r.value < |routes| && RouteAnswer(matcher, routes[r.value].0, url) != Ok(None)
    ensures r.Some? ==> forall j :: 0 <= j < r.value ==> RouteAnswer(matcher, routes[j].0, url) == Ok(None)
    ensures r.None? ==> forall j :: 0 <= j < |routes| ==> RouteAnswer(matcher, routes[j].0, url) == Ok(None)
    decreases |routes|
  {
    if |routes| == 0 then None
    else if RouteAnswer(matcher, routes[0].0, url) != Ok(None) then Some(0)
    else
      match FirstMatch(routes[1..], matcher, url)
      case None => None
      case Some(j) => Some(j + 1)
  }

  /** The route's parameters with each string-keyed capture written over
      them (the numbered captures are skipped). */
  function Overlay(params: PArray, captures: OMap<string>): PArray
    decreases |captures|
  {
    if |captures| == 0 then params
    else
      var next := if IsIntKey(captures[0].0) then params else Put(params, captures[0].0, VStr(captures[0].1));
      Overlay(next, captures[1..])
  }

  /** After the overlay a named capture holds the captured text and every
      other key keeps the route's value. */
  lemma {:induction false} OverlayLookup(params: PArray, captures: OMap<string>, k: string)
    requires DistinctKeys(captures)
    ensures Lookup(Overlay(params, captures), k) ==
      if !IsIntKey(k) && HasKey(captures, k) then Some(VStr(Lookup(captures, k).value)) else Lookup(params, k)
    decreases |captures|
  {
    if |captures| > 0 {
      var next := if IsIntKey(captures[0].0) then params else Put(params, captures[0].0, VStr(captures[0].1));
      var rest := captures[1..];
      assert DistinctKeys(rest) by {
        assert forall i :: 0 <= i < |rest| ==> rest[i] == captures[i + 1];
      }
      OverlayLookup(next, rest, k);
      if captures[0].0 == k {
        assert forall t :: 0 <= t < |rest| ==> rest[t].0 == captures[t + 1].0 != k;
      }
    }
  }

  /** `$namespace`, from the current parameters: the fixed prefix, then
      the `namespace` parameter when there is one. */
  function NamespaceOf(params: PArray): Result<string>
  {
    match Lookup(params, "namespace")
    case None => Ok("App\\Controllers\\")
    case Some(v) =>
      match StringOf(v)
      case None => Err(ArrayToStringConversion)
      case Some(s) => Ok("App\\Controllers\\" + s)
  }

  class Router {
    /** The routing table: pattern => parameters, in insertion order. */
    var routes: OMap<PArray>
    /** The parameters of the last matched route. */
    var params: PArray
    const matcher: Matcher

    constructor(matcher: Matcher)
      ensures routes == [] && params == [] && this.matcher == matcher
    {
      routes := [];
      params := [];
      this.matcher := matcher;
    }

    /** `add($route, $params)`: a new pattern goes last; re-adding a
        pattern replaces its parameters where it stands. */
    method Add(route: string, p: PArray)
      modifies this`routes
      ensures routes == Put(old(routes), route, p)
      ensures Lookup(routes, route) == Some(p)
      ensures forall k :: k != route ==> Lookup(routes, k) == Lookup(old(routes), k)
      ensures Keys(routes) == if HasKey(old(routes), route) then Keys(old(routes)) else Keys(old(routes)) + [route]
    {
      routes := Put(routes, route, p);
    }

    /** `match($url)`: the first matching route's parameters, overlaid by
        its named captures, become the current parameters. */
    method Match(url: string) returns (r: Result<bool>)
      modifies this`params
      ensures FirstMatch(routes, matcher, url).None? ==> r == Ok(false) && params == old(params)
      ensures FirstMatch(routes, matcher, url).Some? ==>
        var j := FirstMatch(routes, matcher, url).value;
        match RouteAnswer(matcher, routes[j].0, url)
        case Err(e) => r == Err(e) && params == old(params)
        case Ok(m) => r == Ok(true) && params == Overlay(routes[j].1, m.value)
    {
      var i := 0;
      while i < |routes|
        invariant 0 <= i <= |routes|
        invariant forall j :: 0 <= j < i ==> RouteAnswer(matcher, routes[j].0, url) == Ok(None)
      {
        if IsIntKey(routes[i].0) {
          return Err(TypeError);
        }
        var matches := matcher(routes[i].0, url);
        if matches.Err? {
          return Err(matches.error);
        }
        if matches.value.Some? {
          params := OverlayCaptures(routes[i].1, matches.value.value);
          return Ok(true);
        }
        i := i + 1;
      }
      return Ok(false);
    }

    /** `getNamespace($string)`: the argument is ignored. */
    method GetNamespace(s: string) returns (r: Result<string>)
      ensures r == NamespaceOf(params)
      ensures r.Ok? ==> "App\\Controllers\\" <= r.value
    {
      r := NamespaceOf(params);
    }

    /** `dispatch($url)` up to the controller class name it looks up
        (class lookup and the call itself are not modelled): no route
        gives the 404 error and leaves the parameters as they were. */
    method Dispatch(url: string) returns (r: Result<string>)
      modifies this`params
      ensures FirstMatch(routes, matcher, url).None? ==> r == Err(RouterBadMethodCall(404)) && params == old(params)
      ensures FirstMatch(routes, matcher, url).Some? ==>
        var j := FirstMatch(routes, matcher, url).value;
        match RouteAnswer(matcher, routes[j].0, url)
        case Err(e) => r == Err(e) && params == old(params)
        case Ok(m) =>
          && params == Overlay(routes[j].1, m.value)
          && r == match Lookup(params, "controller")
                  case None => Err(UndefinedKey)
                  case Some(c) => if c.VStr? then NamespaceOf(params) else Err(TypeError)
    {
      var matched := Match(url);
      if matched.Err? {
        return Err(matched.error);
      }
      if !matched.value {
        return Err(RouterBadMethodCall(404));
      }
      var controller := Lookup(params, "controller");
      if controller.None? {
        return Err(UndefinedKey);
      }
      if !controller.value.VStr? {
        return Err(TypeError);
      }
      var name := UpperCamel(controller.value.s);
      r := GetNamespace(name);
    }
  }

  /** The loop of `match` over the captures. */
  method OverlayCaptures(p: PArray, captures: OMap<string>) returns (q: PArray)
    ensures q == Overlay(p, captures)
  {
    q := p;
    var i := 0;
    while i < |captures|
      invariant 0 <= i <= |captures|
      invariant Overlay(q, captures[i..]) == Overlay(p, captures)
    {
      assert captures[i..][1..] == captures[i + 1..];
      if !IsIntKey(captures[i].0) {
        q := Put(q, captures[i].0, VStr(captures[i].1));
      }
      i := i + 1;
    }
  }
}
