/** RouterManager: builds a routing table from the parsed route list and
    dispatches one URL on it. The YAML loading is outside the model: the
    parsed list is a parameter. */
module RouterManager {
  import opened Outcomes
  import opened OrderedMap
  import opened PhpStrings
  import opened PhpValues
  import opened Router

  /** `isset($route[$key]) && $route[$key] != ''`: only an array entry can
      have the key (`isset` on a string offset with a string key is false). */
  predicate Names(route: PhpValue, key: string)
  {
    route.VArray? && IssetIn(route.a, key) && !LooseEqualsEmptyString(Lookup(route.a, key).value)
  }

  /** The `$args` after one entry, from the previous ones: a namespace
      entry, else a controller entry (its `action` must exist), else the
      previous `$args` unchanged. */
  function EntryArgs(route: PhpValue, previous: PArray): Result<PArray>
  {
    if Names(route, "namespace") then Ok([("namespace", Lookup(route.a, "namespace").value)])
    else if Names(route, "controller") then
      match Lookup(route.a, "action")
      case None => Err(UndefinedKey)
      case Some(action) => Ok([("controller", Lookup(route.a, "controller").value), ("action", action)])
    else Ok(previous)
  }

  /** The `$args` and the routing table after the entries of `routes`,
      in iteration order. An integer key is refused by `add(string ...)`
      under strict types. */
  function Built(routes: PArray): Result<(PArray, OMap<PArray>)>
    decreases |routes|
  {
    if |routes| == 0 then Ok(([], []))
    else
      match Built(routes[..|routes| - 1])
      case Err(e) => Err(e)
      case Ok(state) =>
        var (key, route) := routes[|routes| - 1];
        match EntryArgs(route, state.0)
        case Err(e) => Err(e)
        case Ok(args) =>
          if IsIntKey(key) then Err(TypeError) else Ok((args, Put(state.1, key, args)))
  }

  /** A successful build went through every prefix successfully. */
  lemma {:induction false} BuiltPrefix(routes: PArray, i: nat)
    requires Built(routes).Ok? && i <= |routes|
    ensures Built(routes[..i]).Ok?
    decreases |routes|
  {
    if i < |routes| {
      var init := routes[..|routes| - 1];
      assert init[..i] == routes[..i];
      BuiltPrefix(init, i);
    } else {
      assert routes[..i] == routes;
    }
  }

  /** The last entry of a successful build puts its `$args` in the table. */
  lemma BuiltLast(routes: PArray)
    requires |routes| > 0 && Built(routes).Ok?
    ensures Built(routes[..|routes| - 1]).Ok?
    ensures Built(routes).value.1 ==
      Put(Built(routes[..|routes| - 1]).value.1, routes[|routes| - 1].0, Built(routes).value.0)
  {
  }

  /** One route per entry, in iteration order, keyed by the entry's key. */
  lemma {:induction false} RouteTableKeys(routes: PArray)
    requires Built(routes).Ok? && DistinctKeys(routes)
    ensures Keys(Built(routes).value.1) == Keys(routes)
    decreases |routes|
  {
    if |routes| > 0 {
      var init := routes[..|routes| - 1];
      assert DistinctKeys(init) by {
        assert forall i :: 0 <= i < |init| ==> init[i] == routes[i];
      }
      BuiltLast(routes);
      RouteTableKeys(init);
      RouteTableKeysStep(routes);
    }
  }

  lemma RouteTableKeysStep(routes: PArray)
    requires |routes| > 0 && Built(routes).Ok? && DistinctKeys(routes)
    requires Built(routes[..|routes| - 1]).Ok?
    requires Keys(Built(routes[..|routes| - 1]).value.1) == Keys(routes[..|routes| - 1])
    ensures Keys(Built(routes).value.1) == Keys(routes)
  {
    BuiltLast(routes);
    PutNextKey(Built(routes[..|routes| - 1]).value.1, routes, Built(routes).value.0);
  }

  /** Putting the next entry's key into a table keyed like the entries
      before it gives a table keyed like all of them. */
  lemma PutNextKey(t: OMap<PArray>, routes: PArray, args: PArray)
    requires |routes| > 0 && DistinctKeys(routes) && Keys(t) == Keys(routes[..|routes| - 1])
    ensures Keys(Put(t, routes[|routes| - 1].0, args)) == Keys(routes)
  {
    var n := |routes|;
    var init, key := routes[..n - 1], routes[n - 1].0;
    InKeys(t, key);
    assert key !in Keys(init) by {
      assert forall i :: 0 <= i < |init| ==> Keys(init)[i] == routes[i].0;
    }
    assert Keys(routes) == Keys(init) + [key];
  }

  /** Each entry's route holds the `$args` as they stood right after
      that entry. */
  lemma {:induction false} RouteTableEntry(routes: PArray, i: nat)
    requires Built(routes).Ok? && DistinctKeys(routes) && i < |routes|
    ensures Built(routes[..i + 1]).Ok?
    ensures Lookup(Built(routes).value.1, routes[i].0) == Some(Built(routes[..i + 1]).value.0)
    decreases |routes|
  {
    BuiltPrefix(routes, i + 1);
    BuiltLast(routes);
    var n := |routes|;
    if i == n - 1 {
      assert routes[..i + 1] == routes;
    } else {
      var init := routes[..n - 1];
      assert DistinctKeys(init) by {
        assert forall j :: 0 <= j < |init| ==> init[j] == routes[j];
      }
      assert init[..i + 1] == routes[..i + 1];
      RouteTableEntry(init, i);
      assert routes[n - 1].0 != routes[i].0;
      assert Lookup(Built(routes).value.1, routes[i].0) == Lookup(Built(init).value.1, routes[i].0);
    }
  }

  /** An entry naming neither a namespace nor a controller keeps the
      previous entry's `$args`; the first such entry gets `[]`. */
  lemma CarryOver(routes: PArray, i: nat)
    requires i < |routes| && Built(routes[..i + 1]).Ok?
    requires !Names(routes[i].1, "namespace") && !Names(routes[i].1, "controller")
    ensures Built(routes[..i]).Ok?
    ensures Built(routes[..i + 1]).value.0 == if i == 0 then [] else Built(routes[..i]).value.0
  {
    assert routes[..i + 1][..i] == routes[..i];
  }

  /** A namespace entry's route holds the namespace alone. */
  lemma NamespaceOnly(routes: PArray, i: nat)
    requires i < |routes| && Built(routes[..i + 1]).Ok? && Names(routes[i].1, "namespace")
    ensures Built(routes[..i + 1]).value.0 == [("namespace", Lookup(routes[i].1.a, "namespace").value)]
  {
    assert routes[..i + 1][..i] == routes[..i];
  }

  /** Otherwise a controller entry's route holds its controller and its
      action, and a missing action stops the build. */
  lemma ControllerAndAction(routes: PArray, i: nat)
    requires i < |routes| && Built(routes[..i]).Ok?
    requires !Names(routes[i].1, "namespace") && Names(routes[i].1, "controller")
    ensures Lookup(routes[i].1.a, "action").None? ==> Built(routes[..i + 1]) == Err(UndefinedKey)
    ensures Built(routes[..i + 1]).Ok? ==>
      Built(routes[..i + 1]).value.0 ==
        [("controller", Lookup(routes[i].1.a, "controller").value), ("action", Lookup(routes[i].1.a, "action").value)]
  {
    assert routes[..i + 1][..i] == routes[..i];
  }

  /** `dispatchRoute($url)` on the parsed routes `loaded`. Nothing is
      dispatched (None) unless they are a non-empty array. */
  method DispatchRoute(loaded: PhpValue, url: string, matcher: Matcher) returns (router: Router, r: Result<Option<string>>)
    ensures fresh(router) && router.matcher == matcher
    ensures !(loaded.VArray? && |loaded.a| > 0) ==> r == Ok(None) && router.routes == []
    ensures loaded.VArray? && |loaded.a| > 0 && Built(loaded.a).Err? ==> r == Err(Built(loaded.a).error)
    ensures loaded.VArray? && |loaded.a| > 0 && Built(loaded.a).Ok? ==>
      && router.routes == Built(loaded.a).value.1
      && (FirstMatch(router.routes, matcher, url).None? ==> r == Err(RouterBadMethodCall(404)) && router.params == [])
      && (r.Ok? ==> r.value.Some? && FirstMatch(router.routes, matcher, url).Some?)
      && (FirstMatch(router.routes, matcher, url).Some? ==>
            var j := FirstMatch(router.routes, matcher, url).value;
            match RouteAnswer(matcher, router.routes[j].0, url)
            case Err(e) => r == Err(e) && router.params == []
            case Ok(m) =>
              && router.params == Overlay(router.routes[j].1, m.value)
              && r == match Lookup(router.params, "controller")
                      case None => Err(UndefinedKey)
                      case Some(c) =>
                        if !c.VStr? then Err(TypeError)
                        else match NamespaceOf(router.params)
                          case Ok(name) => Ok(Some(name))
                          case Err(e) => Err(e))
  {
    router := new Router(matcher);
    if !(loaded.VArray? && |loaded.a| > 0) {
      return router, Ok(None);
    }
    var routes := loaded.a;
    var args: PArray := [];
    var i := 0;
    while i < |routes|
      invariant 0 <= i <= |routes|
      invariant Built(routes[..i]) == Ok((args, router.routes))
      invariant router.params == [] && router.matcher == matcher
    {
      assert routes[..i + 1][..i] == routes[..i];
      var (key, route) := routes[i];
      var next := EntryArgs(route, args);
      if next.Err? {
        BuiltStops(routes, i);
        return router, Err(next.error);
      }
      args := next.value;
      if IsIntKey(key) {
        BuiltStops(routes, i);
        return router, Err(TypeError);
      }
      router.Add(key, args);
      i := i + 1;
    }
    assert routes[..i] == routes;
    var dispatched := router.Dispatch(url);
    if dispatched.Err? {
      return router, Err(dispatched.error);
    }
    return router, Ok(Some(dispatched.value));
  }

  /** A failing entry fails the whole build. */
  lemma {:induction false} BuiltStops(routes: PArray, i: nat)
    requires i < |routes| && Built(routes[..i + 1]).Err?
    ensures Built(routes) == Built(routes[..i + 1])
    decreases |routes|
  {
    if i + 1 == |routes| {
      assert routes[..i + 1] == routes;
    } else {
      var init := routes[..|routes| - 1];
      assert init[..i + 1] == routes[..i + 1];
      BuiltStops(init, i);
    }
  }
}
