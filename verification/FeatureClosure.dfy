/** `default_feature_closure` of `scripts/check_compose_features.py`: the features a crate turns on
    by default, followed through the feature table with a worklist. */
module FeatureClosure {

  type Features = map<string, seq<string>>

  function Listed(features: Features, name: string): seq<string>
  {
    if name in features then features[name] else []
  }

  // ---- What it means to be turned on ----

  /** A chain of names, each listed under the one before, starting under `default`. */
  predicate Chain(features: Features, path: seq<string>)
  {
    && |path| > 0 && path[0] in Listed(features, "default")
    && forall i :: 0 < i < |path| ==> path[i] in Listed(features, path[i - 1])
  }

  predicate EndsIn(features: Features, path: seq<string>, name: string)
  {
    Chain(features, path) && path[|path| - 1] == name
  }

  ghost predicate TurnedOn(features: Features, name: string)
  {
    exists path :: EndsIn(features, path, name)
  }

  lemma ListedFirst(features: Features, name: string)
    requires name in Listed(features, "default")
    ensures TurnedOn(features, name)
  {
    assert EndsIn(features, [name], name);
  }

  lemma ListedNext(features: Features, name: string, next: string)
    requires TurnedOn(features, name) && next in Listed(features, name)
    ensures TurnedOn(features, next)
  {
    var path :| EndsIn(features, path, name);
    assert EndsIn(features, path + [next], next);
  }

  /** Anything that holds the first names and is closed under listing holds every name turned on. */
  lemma {:induction false} ClosedHoldsAll(features: Features, names: set<string>, path: seq<string>)
    requires forall name :: name in Listed(features, "default") ==> name in names
    requires forall name, next :: name in names && next in Listed(features, name) ==> next in names
    requires Chain(features, path)
    ensures path[|path| - 1] in names
    decreases |path|
  {
    if |path| > 1 {
      var l := |path| - 1;
      assert Chain(features, path[..l]);
      ClosedHoldsAll(features, names, path[..l]);
      assert path[l] in Listed(features, path[l - 1]);
    }
  }

  // ---- The worklist ----

  /** Feature names not expanded yet: the first part of the measure. */
  function Unexpanded(features: Features, resolved: set<string>): set<string>
  {
    features.Keys - resolved
  }

  /** What the two collections hold together: only names turned on, the first names, and whatever
      a resolved name lists. */
  ghost predicate Underway(features: Features, resolved: set<string>, pending: seq<string>)
  {
    && (forall name :: name in resolved || name in pending ==> TurnedOn(features, name))
    && (forall name :: name in Listed(features, "default") ==> name in resolved || name in pending)
    && (forall name, next :: name in resolved && next in Listed(features, name) ==> next in resolved || next in pending)
  }

  lemma Starts(features: Features)
    ensures Underway(features, {}, Listed(features, "default"))
  {
    forall name | name in Listed(features, "default") ensures TurnedOn(features, name) {
      ListedFirst(features, name);
    }
  }

  /** Popping a name that leads nowhere new. */
  lemma PopsKnown(features: Features, resolved: set<string>, pending: seq<string>, name: string, rest: seq<string>)
    requires Underway(features, resolved, pending) && pending == rest + [name] &&
             (name in resolved || name !in features)
    ensures Underway(features, resolved + {name}, rest)
    ensures Unexpanded(features, resolved + {name}) == Unexpanded(features, resolved)
  {
    assert name in pending;
    assert forall other :: other in resolved || other in pending <==> other in resolved + {name} || other in rest;
  }

  /** Popping a name and putting what it lists in its place. */
  lemma PopsNew(features: Features, resolved: set<string>, pending: seq<string>, name: string, rest: seq<string>)
    requires Underway(features, resolved, pending) && pending == rest + [name] && name in features && name !in resolved
    ensures Underway(features, resolved + {name}, rest + features[name])
    ensures |Unexpanded(features, resolved + {name})| < |Unexpanded(features, resolved)|
  {
    assert name in pending;
    forall next | next in Listed(features, name) ensures TurnedOn(features, next) {
      ListedNext(features, name, next);
    }
    assert forall other :: other in resolved || other in pending <==> other in resolved + {name} || other in rest;
    assert Unexpanded(features, resolved) == Unexpanded(features, resolved + {name}) + {name};
  }

  /** One turn of the loop, either way. */
  lemma Pops(features: Features, resolved: set<string>, pending: seq<string>, name: string, rest: seq<string>)
    requires Underway(features, resolved, pending) && pending != []
    requires name == pending[|pending| - 1] && rest == pending[..|pending| - 1]
    ensures if name in resolved || name !in features
            then Underway(features, resolved + {name}, rest)
                 && |Unexpanded(features, resolved + {name})| == |Unexpanded(features, resolved)|
            else Underway(features, resolved + {name}, rest + features[name])
                 && |Unexpanded(features, resolved + {name})| < |Unexpanded(features, resolved)|
  {
    assert pending == rest + [name];
    if name in resolved || name !in features {
      PopsKnown(features, resolved, pending, name, rest);
    } else {
      PopsNew(features, resolved, pending, name, rest);
    }
  }

  lemma Finishes(features: Features, resolved: set<string>)
    requires Underway(features, resolved, [])
    ensures forall name :: name in resolved <==> TurnedOn(features, name)
  {
    forall name | TurnedOn(features, name) ensures name in resolved {
      var path :| EndsIn(features, path, name);
      ClosedHoldsAll(features, resolved, path);
    }
  }

  /** Terminates on every table, cyclic ones included, with exactly the names turned on; a name
      with no entry of its own is kept and leads nowhere. */
  method DefaultFeatureClosure(features: Features) returns (resolved: set<string>)
    ensures forall name :: name in resolved <==> TurnedOn(features, name)
  {
    resolved := {};
    var pending := Listed(features, "default");
    Starts(features);
    while pending != []
      invariant Underway(features, resolved, pending)
      decreases |Unexpanded(features, resolved)|, |pending|
    {
      var name, rest := pending[|pending| - 1], pending[..|pending| - 1];
      Pops(features, resolved, pending, name, rest);
      if name in resolved || name !in features {
        resolved, pending := resolved + {name}, rest;
        continue;
      }
      resolved, pending := resolved + {name}, rest + features[name];
    }
    Finishes(features, resolved);
  }

  /** "default" itself is in the result only if something it turns on lists it again. */
  lemma DefaultNeedsACycle(features: Features)
    ensures TurnedOn(features, "default") <==>
            ("default" in Listed(features, "default")
             || exists name :: TurnedOn(features, name) && "default" in Listed(features, name))
  {
    if TurnedOn(features, "default") {
      var path :| EndsIn(features, path, "default");
      if |path| > 1 {
        var l := |path| - 1;
        assert EndsIn(features, path[..l], path[l - 1]);
      }
    }
    if "default" in Listed(features, "default") {
      ListedFirst(features, "default");
    }
    if name :| TurnedOn(features, name) && "default" in Listed(features, name) {
      ListedNext(features, name, "default");
    }
  }
}
